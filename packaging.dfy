/**
 * The tamper-proof packaging controller: packages are created per stock item of a delivery, checked
 * against the planned route, reported as tampered, scanned by barcode or QR code and completed. A
 * package is found by its `packageId`, which is also its key in the collection.
 */
module TamperProofPackagingController {
  import opened Wrappers
  import opened Strings
  import opened Geo
  import opened UserModel
  import opened Json
  import TM = TrackingModel
  import opened PackageModel
  import opened Store

  // ---------------------------------------------------------------------------------------------
  // The codes printed on a package
  // ---------------------------------------------------------------------------------------------

  /**
   * generatePackageId, given the clock reading `ms` and the draw `d` (the source draws it from
   * 1000 to 9999).
   */
  function PackageIdOf(ms: int, d: int): (id: string)
    ensures StartsWith(id, "PKG-") && !StartsWith(id, "BAR-")
  {
    "PKG-" + (IntToString(ms) + ("-" + IntToString(d)))
  }

  /** A rendered integer is a minus sign and digits, so it can be quoted as it is. */
  lemma IntToStringPlain(n: int)
    ensures Plain(IntToString(n))
  {
    var m := if n < 0 then -n else n;
    NatToStringShape(m);
    var s := IntToString(n);
    forall i | 0 <= i < |s|
      ensures s[i] != '"' && s[i] != '\\' && (s[i] as int) >= 0x20
    {
      if n < 0 && i > 0 {
        assert s[i] == NatToString(m)[i - 1];
      }
    }
  }

  /** A package id needs no escaping inside a JSON string. */
  lemma PackageIdPlain(ms: int, d: int)
    ensures Plain(PackageIdOf(ms, d))
  {
    IntToStringPlain(ms);
    IntToStringPlain(d);
    var a := IntToString(ms);
    var b := IntToString(d);
    var s := PackageIdOf(ms, d);
    forall i | 0 <= i < |s|
      ensures s[i] != '"' && s[i] != '\\' && (s[i] as int) >= 0x20
    {
      if 4 <= i < 4 + |a| {
        assert s[i] == a[i - 4];
      } else if 5 + |a| <= i {
        assert s[i] == b[i - 5 - |a|];
      }
    }
  }

  /** In digits followed by a dash, the dash comes after all the digits. */
  lemma DigitBeforeDash(a: string, b: string, i: nat)
    requires AllDigits(a) && i < |a|
    ensures (a + ("-" + b))[i] == a[i] && IsDigit((a + ("-" + b))[i]) && (a + ("-" + b))[|a|] == '-'
  {
  }

  /** Two digit strings followed by a dash split the same way. */
  lemma SplitAtDash(a: string, b: string, c: string, d: string)
    requires AllDigits(a) && AllDigits(c)
    requires a + ("-" + b) == c + ("-" + d)
    ensures a == c && b == d
  {
    var s := a + ("-" + b);
    if |a| < |c| {
      DigitBeforeDash(c, d, |a|);
      assert false;
    } else if |c| < |a| {
      DigitBeforeDash(a, b, |c|);
      assert false;
    }
    assert a == s[..|a|];
    assert c == (c + ("-" + d))[..|c|];
    assert b == s[|a| + 1..];
    assert d == (c + ("-" + d))[|c| + 1..];
  }

  /** Ids drawn at different times, or with different draws, differ. */
  lemma PackageIdInjective(ms1: nat, d1: nat, ms2: nat, d2: nat)
    requires PackageIdOf(ms1, d1) == PackageIdOf(ms2, d2)
    ensures ms1 == ms2 && d1 == d2
  {
    NatToStringShape(ms1);
    NatToStringShape(ms2);
    var s1 := PackageIdOf(ms1, d1);
    var s2 := PackageIdOf(ms2, d2);
    assert s1[4..] == NatToString(ms1) + ("-" + NatToString(d1));
    assert s2[4..] == NatToString(ms2) + ("-" + NatToString(d2));
    SplitAtDash(NatToString(ms1), NatToString(d1), NatToString(ms2), NatToString(d2));
    NatToStringInjective(ms1, ms2);
    NatToStringInjective(d1, d2);
  }

  /** The members of the QR content, in the order the source writes them. */
  const QrKeys: seq<string> := ["packageId", "deliveryId", "batchNumber", "timestamp"]

  /**
   * generateQRContent as written, at clock reading `ms`: a template in which the three fields are
   * put between quotes without escaping and the clock reading follows as a number (the constant
   * keys need no escaping).
   */
  function QrContent(packageId: string, deliveryId: string, batchNumber: string, ms: int): string {
    ObjectText(QrKeys, [Raw(packageId), Raw(deliveryId), Raw(batchNumber), IntToString(ms)])
  }

  /** The same object written by `JSON.stringify`: every field is escaped. */
  function SafeQrContent(packageId: string, deliveryId: string, batchNumber: string, ms: int): string {
    ObjectText(QrKeys, [Quote(packageId), Quote(deliveryId), Quote(batchNumber), IntToString(ms)])
  }

  /** The object the QR content stands for. */
  function QrObject(packageId: string, deliveryId: string, batchNumber: string, ms: int): Value {
    JObject(Zip(QrKeys, [JString(packageId), JString(deliveryId), JString(batchNumber), JNumber(IntToString(ms))]))
  }

  /** A string that needs no escaping is quoted as it is. */
  lemma QuotePlain(x: string)
    requires Plain(x)
    ensures Quote(x) == Raw(x)
  {
    EscapePlain(x);
  }

  /** For fields that need no escaping, the content as written is the escaped one. */
  lemma QrContentPlain(packageId: string, deliveryId: string, batchNumber: string, ms: int)
    requires Plain(packageId) && Plain(deliveryId) && Plain(batchNumber)
    ensures QrContent(packageId, deliveryId, batchNumber, ms) == SafeQrContent(packageId, deliveryId, batchNumber, ms)
  {
    QuotePlain(packageId);
    QuotePlain(deliveryId);
    QuotePlain(batchNumber);
  }

  /** The escaped QR content reads back as the object it was written from, whatever the fields hold. */
  lemma SafeQrContentParses(packageId: string, deliveryId: string, batchNumber: string, ms: int)
    ensures Parse(SafeQrContent(packageId, deliveryId, batchNumber, ms)) == Some(QrObject(packageId, deliveryId, batchNumber, ms))
  {
    var texts := [Quote(packageId), Quote(deliveryId), Quote(batchNumber), IntToString(ms)];
    var values := [JString(packageId), JString(deliveryId), JString(batchNumber), JNumber(IntToString(ms))];
    QuoteReadsAs(packageId);
    QuoteReadsAs(deliveryId);
    QuoteReadsAs(batchNumber);
    IntReadsAs(ms);
    assert forall i :: 0 <= i < |texts| ==> ReadsAs(texts[i], values[i]);
    ObjectParses(QrKeys, texts, values);
  }

  /** A field that needs no escaping, written between quotes, reads as that string. */
  lemma RawReadsAs(x: string)
    requires Plain(x)
    ensures ReadsAs(Raw(x), JString(x))
  {
    QuotePlain(x);
    QuoteReadsAs(x);
  }

  /** In members whose only `key` is the first, a property read of `key` gives the first value. */
  lemma LookupFirst(members: seq<(string, Value)>, key: string)
    requires |members| > 0 && members[0].0 == key
    requires forall i :: 0 < i < |members| ==> members[i].0 != key
    ensures Lookup(members, key) == Some(members[0].1)
  {
  }

  // ---------------------------------------------------------------------------------------------
  // Scan classification
  // ---------------------------------------------------------------------------------------------

  /**
   * The query a scanned code turns into. `Unresolved` is a JSON text whose `packageId` is not a
   * string (a missing member, a number, a nested value), which the database answers by casting.
   */
  datatype Query = ByBarcode(code: string) | ByPackageId(id: string) | Unresolved

  /**
   * scanPackage's classification: a `BAR-` code is a barcode; otherwise the code is parsed as JSON
   * and its `packageId` is used; a code that is not JSON, or is JSON `null` (reading a property of
   * which throws), is taken as the package id itself.
   */
  function Classify(code: string): (q: Query)
    ensures q.ByBarcode? <==> StartsWith(code, "BAR-")
    ensures q.ByBarcode? ==> q.code == code
    ensures Json.Parse(code).None? && !StartsWith(code, "BAR-") ==> q == ByPackageId(code)
  {
    if StartsWith(code, "BAR-") then ByBarcode(code)
    else
      match Json.Parse(code)
      case None => ByPackageId(code)
      case Some(JNull) => ByPackageId(code)
      case Some(JObject(members)) =>
        (match Json.Lookup(members, "packageId")
         case Some(JString(p)) => ByPackageId(p)
         case _ => Unresolved)
      case Some(_) => Unresolved
  }

  /** `TamperProofPackaging.findOne(query)` answered `found`; an unresolved query may match anything. */
  ghost predicate FindsPackage(docs: map<string, Package>, q: Query, found: Option<string>) {
    match q
    case ByBarcode(b) =>
      (match found
       case None => forall k | k in docs :: docs[k].barcode != b
       case Some(k) => k in docs && docs[k].barcode == b)
    case ByPackageId(id) =>
      (match found
       case None => forall k | k in docs :: docs[k].packageId != id
       case Some(k) => k in docs && docs[k].packageId == id)
    case Unresolved => found.None? || found.value in docs
  }

  /** A code that is not a barcode and parses as an object is looked up by that object's string `packageId`. */
  lemma ClassifyObject(code: string, members: seq<(string, Value)>, id: string)
    requires !StartsWith(code, "BAR-") && Parse(code) == Some(JObject(members))
    requires Lookup(members, "packageId") == Some(JString(id))
    ensures Classify(code) == ByPackageId(id)
  {
  }

  /** An object text is not a barcode. */
  lemma ObjectTextNotBarcode(keys: seq<string>, texts: seq<string>)
    requires |keys| == |texts|
    ensures !StartsWith(ObjectText(keys, texts), "BAR-")
  {
    var s := ObjectText(keys, texts);
    assert s[0] == '{';
    assert |s| < 4 || s[..4][0] == '{';
  }

  /** Reading `packageId` from the QR object gives the package id. */
  lemma QrObjectLookup(packageId: string, deliveryId: string, batchNumber: string, ms: int)
    ensures Lookup(QrObject(packageId, deliveryId, batchNumber, ms).members, "packageId") == Some(JString(packageId))
  {
    var members := QrObject(packageId, deliveryId, batchNumber, ms).members;
    assert members[1].0 == "deliveryId" && members[2].0 == "batchNumber" && members[3].0 == "timestamp";
    LookupFirst(members, "packageId");
  }

  /** The escaped QR content of a package scans as a lookup of its id, whatever the fields hold. */
  lemma SafeQrContentClassifies(packageId: string, deliveryId: string, batchNumber: string, ms: int)
    ensures Classify(SafeQrContent(packageId, deliveryId, batchNumber, ms)) == ByPackageId(packageId)
  {
    ObjectTextNotBarcode(QrKeys, [Quote(packageId), Quote(deliveryId), Quote(batchNumber), IntToString(ms)]);
    QrObjectLookup(packageId, deliveryId, batchNumber, ms);
    SafeQrContentParses(packageId, deliveryId, batchNumber, ms);
    ClassifyObject(SafeQrContent(packageId, deliveryId, batchNumber, ms),
                   QrObject(packageId, deliveryId, batchNumber, ms).members, packageId);
  }

  /** A package id is not a JSON text. */
  /**
   * The text the printed QR image carries (generateQRCode, before URL encoding): the package id
   * and the QR content behind fixed tags.
   */
  function PrintedQrText(packageId: string, qrContent: string): string {
    "DELIVERY:" + (packageId + ("|OTP:" + qrContent))
  }

  /**
   * Scanning the printed text looks it up as a bare package id, which no generated package id
   * equals, so the printed code never finds its package.
   */
  lemma PrintedQrTextNotAnId(packageId: string, qrContent: string)
    ensures Classify(PrintedQrText(packageId, qrContent)) == ByPackageId(PrintedQrText(packageId, qrContent))
    ensures forall ms: int, d: int :: PackageIdOf(ms, d) != PrintedQrText(packageId, qrContent)
  {
    var s := PrintedQrText(packageId, qrContent);
    assert s[0] == 'D';
    NotJson(s);
    forall ms: int, d: int
      ensures PackageIdOf(ms, d) != s
    {
      assert PackageIdOf(ms, d)[0] == 'P';
    }
  }

  lemma PackageIdNotJson(ms: int, d: int)
    ensures Parse(PackageIdOf(ms, d)) == None
  {
    var s := PackageIdOf(ms, d);
    assert s[0] == 'P';
    NotJson(s);
  }

  /** The barcode, the QR content and the bare id of a stored package each scan as that package. */
  lemma ScanResolves(docs: map<string, Package>, ms: int, d: int, deliveryId: string, batchNumber: string,
                     t: int, query: Query, found: Option<string>)
    requires PackagesWellFormed(docs) && PackageIdOf(ms, d) in docs
    requires query == Classify(Barcode(PackageIdOf(ms, d)))
          || query == Classify(SafeQrContent(PackageIdOf(ms, d), deliveryId, batchNumber, t))
          || query == Classify(PackageIdOf(ms, d))
    requires FindsPackage(docs, query, found)
    ensures found == Some(PackageIdOf(ms, d))
  {
    var id := PackageIdOf(ms, d);
    SafeQrContentClassifies(id, deliveryId, batchNumber, t);
    PackageIdNotJson(ms, d);
    if query == Classify(Barcode(id)) {
      assert query == ByBarcode(Barcode(id));
      assert docs[id].barcode == Barcode(id);
      var k := found.value;
      assert Barcode(k)[4..] == k && Barcode(id)[4..] == id;
    }
  }

  /** The batch number that closes its own string and adds a second `packageId` member. */
  function InjectedBatch(prefix: string, other: string): string {
    prefix + ("\",\"" + ("packageId" + ("\":\"" + other)))
  }

  /**
   * A value that closes its string, then writes `,"key":"` and more, is followed in the text by a
   * member `key` whose value is that more, between quotes.
   */
  lemma SplicedMember(prefix: string, key: string, other: string, tail: string)
    requires Quote(key) == Raw(key)
    ensures Raw(prefix + ("\",\"" + (key + ("\":\"" + other)))) + tail
            == Raw(prefix) + ("," + MemberText(key, Raw(other), tail))
  {
    var lhs := Raw(prefix + ("\",\"" + (key + ("\":\"" + other)))) + tail;
    var rhs := Raw(prefix) + ("," + MemberText(key, Raw(other), tail));
    assert |lhs| == |rhs|;
    forall i | 0 <= i < |lhs|
      ensures lhs[i] == rhs[i]
    {
      var a := 1 + |prefix|;
      var b := a + 3 + |key|;
      var c := b + 3 + |other|;
      if i < a {
      } else if i < b {
      } else if i < c {
      } else {
      }
    }
  }

  /** The members of the injected QR content. */
  const InjectedKeys: seq<string> := ["packageId", "deliveryId", "batchNumber", "packageId", "timestamp"]

  /**
   * Four members whose third value text is also the text of a value, a `,` and one more member with
   * key `key` are the text of five members.
   */
  lemma MembersSplit(k1: string, k2: string, k3: string, key: string, k4: string,
                     t1: string, t2: string, b: string, v1: string, v2: string, n: string)
    requires b + ("," + MemberText(k4, n, "}")) == v1 + ("," + MemberText(key, v2, "," + MemberText(k4, n, "}")))
    ensures ObjectText([k1, k2, k3, k4], [t1, t2, b, n]) == ObjectText([k1, k2, k3, key, k4], [t1, t2, v1, v2, n])
  {
    MembersSplitLast(k3, key, k4, b, v1, v2, n);
    MembersTextPrepend(k2, t2, [k3, k4], [b, n], [k3, key, k4], [v1, v2, n]);
    assert [k2] + [k3, k4] == [k2, k3, k4] && [t2] + [b, n] == [t2, b, n];
    assert [k2] + [k3, key, k4] == [k2, k3, key, k4] && [t2] + [v1, v2, n] == [t2, v1, v2, n];
    MembersTextPrepend(k1, t1, [k2, k3, k4], [t2, b, n], [k2, k3, key, k4], [t2, v1, v2, n]);
    assert [k1] + [k2, k3, k4] == [k1, k2, k3, k4] && [t1] + [t2, b, n] == [t1, t2, b, n];
    assert [k1] + [k2, k3, key, k4] == [k1, k2, k3, key, k4] && [t1] + [t2, v1, v2, n] == [t1, t2, v1, v2, n];
  }

  /** The last two members of that object, before and after the split. */
  lemma MembersSplitLast(k3: string, key: string, k4: string, b: string, v1: string, v2: string, n: string)
    requires b + ("," + MemberText(k4, n, "}")) == v1 + ("," + MemberText(key, v2, "," + MemberText(k4, n, "}")))
    ensures MembersText([k3, k4], [b, n]) == MembersText([k3, key, k4], [v1, v2, n])
  {
    var stamp := MemberText(k4, n, "}");
    assert MembersText([k4], [n]) == stamp;
    assert MembersText([key, k4], [v2, n]) == MemberText(key, v2, "," + stamp) by {
      assert [key, k4][1..] == [k4] && [v2, n][1..] == [n];
    }
    assert MembersText([k3, k4], [b, n]) == MemberText(k3, b, "," + stamp) by {
      assert [k3, k4][1..] == [k4] && [b, n][1..] == [n];
    }
    assert MembersText([k3, key, k4], [v1, v2, n]) == MemberText(k3, v1, "," + MembersText([key, k4], [v2, n])) by {
      assert [k3, key, k4][1..] == [key, k4] && [v1, v2, n][1..] == [v2, n];
    }
    MemberTextSplit(k3, b, "," + stamp, v1, "," + MemberText(key, v2, "," + stamp));
  }

  /** The injected batch number, then a `,` and the timestamp member, is the text of two string members. */
  lemma InjectedTail(prefix: string, other: string, n: string)
    ensures var stamp := MemberText("timestamp", n, "}");
            Raw(InjectedBatch(prefix, other)) + ("," + stamp)
            == Raw(prefix) + ("," + MemberText("packageId", Raw(other), "," + stamp))
  {
    assert Plain("packageId");
    QuotePlain("packageId");
    SplicedMember(prefix, "packageId", other, "," + MemberText("timestamp", n, "}"));
  }

  /** The QR content as written with that batch number is the text of an object with five members. */
  lemma InjectedText(packageId: string, deliveryId: string, prefix: string, other: string, ms: int)
    ensures QrContent(packageId, deliveryId, InjectedBatch(prefix, other), ms)
            == ObjectText(InjectedKeys, InjectedTexts(packageId, deliveryId, prefix, other, ms))
  {
    InjectedTail(prefix, other, IntToString(ms));
    MembersSplit("packageId", "deliveryId", "batchNumber", "packageId", "timestamp",
                 Raw(packageId), Raw(deliveryId), Raw(InjectedBatch(prefix, other)), Raw(prefix), Raw(other), IntToString(ms));
  }

  /** The five value texts of the injected QR content, as written. */
  function InjectedTexts(packageId: string, deliveryId: string, prefix: string, other: string, ms: int): seq<string> {
    [Raw(packageId), Raw(deliveryId), Raw(prefix), Raw(other), IntToString(ms)]
  }

  /** The five values those texts stand for. */
  function InjectedValues(packageId: string, deliveryId: string, prefix: string, other: string, ms: int): seq<Value> {
    [JString(packageId), JString(deliveryId), JString(prefix), JString(other), JNumber(IntToString(ms))]
  }

  /** Each of the five value texts reads as its value. */
  lemma InjectedReadAs(packageId: string, deliveryId: string, prefix: string, other: string, ms: int)
    requires Plain(packageId) && Plain(deliveryId) && Plain(prefix) && Plain(other)
    ensures var texts := InjectedTexts(packageId, deliveryId, prefix, other, ms);
            var values := InjectedValues(packageId, deliveryId, prefix, other, ms);
            |texts| == |values| == 5 && forall i :: 0 <= i < |texts| ==> ReadsAs(texts[i], values[i])
  {
    var texts := InjectedTexts(packageId, deliveryId, prefix, other, ms);
    var values := InjectedValues(packageId, deliveryId, prefix, other, ms);
    forall i | 0 <= i < |texts|
      ensures ReadsAs(texts[i], values[i])
    {
      if i == 0 {
        RawReadsAs(packageId);
      } else if i == 1 {
        RawReadsAs(deliveryId);
      } else if i == 2 {
        RawReadsAs(prefix);
      } else if i == 3 {
        RawReadsAs(other);
      } else {
        IntReadsAs(ms);
      }
    }
  }

  /** The five-member object reads back, its fields needing no escaping. */
  lemma InjectedParses(packageId: string, deliveryId: string, prefix: string, other: string, ms: int)
    requires Plain(packageId) && Plain(deliveryId) && Plain(prefix) && Plain(other)
    ensures Parse(ObjectText(InjectedKeys, InjectedTexts(packageId, deliveryId, prefix, other, ms)))
            == Some(JObject(Zip(InjectedKeys, InjectedValues(packageId, deliveryId, prefix, other, ms))))
  {
    InjectedReadAs(packageId, deliveryId, prefix, other, ms);
    ObjectParses(InjectedKeys, InjectedTexts(packageId, deliveryId, prefix, other, ms),
                 InjectedValues(packageId, deliveryId, prefix, other, ms));
  }

  /** In the five-member object the second `packageId` wins. */
  lemma InjectedLookup(packageId: string, deliveryId: string, prefix: string, other: string, ms: int)
    ensures Lookup(Zip(InjectedKeys, InjectedValues(packageId, deliveryId, prefix, other, ms)), "packageId")
            == Some(JString(other))
  {
    var members := Zip(InjectedKeys, InjectedValues(packageId, deliveryId, prefix, other, ms));
    assert members[4].0 == "timestamp";
    assert Lookup(members, "packageId") == Lookup(members[..4], "packageId");
    assert members[..4][3] == ("packageId", JString(other));
  }

  /**
   * With that batch number the QR content as written scans as a lookup of another package: the last
   * member wins in `JSON.parse`.
   */
  lemma QrContentInjection(packageId: string, deliveryId: string, prefix: string, other: string, ms: int)
    requires Plain(packageId) && Plain(deliveryId) && Plain(prefix) && Plain(other)
    ensures Classify(QrContent(packageId, deliveryId, InjectedBatch(prefix, other), ms)) == ByPackageId(other)
  {
    var texts := InjectedTexts(packageId, deliveryId, prefix, other, ms);
    var members := Zip(InjectedKeys, InjectedValues(packageId, deliveryId, prefix, other, ms));
    InjectedText(packageId, deliveryId, prefix, other, ms);
    ObjectTextNotBarcode(InjectedKeys, texts);
    InjectedLookup(packageId, deliveryId, prefix, other, ms);
    InjectedParses(packageId, deliveryId, prefix, other, ms);
    ClassifyObject(ObjectText(InjectedKeys, texts), members, other);
  }

  // ---------------------------------------------------------------------------------------------
  // createPackaging
  // ---------------------------------------------------------------------------------------------

  /** The roles allowed to create packaging. */
  const PackagingRoles: seq<Role> := [Admin, GodownManager]

  /** `Stock.find({ _id: { $in: stockIds } })` answered `found`: each existing listed stock once. */
  ghost predicate FindsStocks(docs: map<string, StockModel.Stock>, stockIds: seq<string>, found: seq<string>) {
    && (forall i, j :: 0 <= i < j < |found| ==> found[i] != found[j])
    && (forall k :: k in found <==> k in docs && k in stockIds)
  }

  /** The id and the QR content generated for one stock. */
  datatype Label = Label(id: string, qr: string)

  /** The label of the draw `d` at time `now`: the package id and the QR content of that id. */
  function LabelOf(deliveryId: string, batchNumber: string, now: int, d: int): Label {
    var id := PackageIdOf(now, d);
    Label(id, SafeQrContent(id, deliveryId, batchNumber, now))
  }

  /** The labels of the first `n` stocks, the `i`-th from the `i`-th draw. */
  function Labels(deliveryId: string, batchNumber: string, draws: nat -> int, now: int, n: nat): seq<Label> {
    seq(n, i requires 0 <= i < n => LabelOf(deliveryId, batchNumber, now, draws(i)))
  }

  /** One more creation extends the creations for the stocks before it. */
  lemma CreateAllStep(docs: map<string, Package>, stocks: seq<string>, labels: seq<Label>,
                      deliveryId: string, batchNumber: string, features: SecurityFeatures, i: nat)
    requires |labels| == |stocks| && i < |stocks|
    ensures var c := CreateAll(docs, stocks[..i], labels[..i], deliveryId, batchNumber, features);
            var id := labels[i].id;
            CreateAll(docs, stocks[..i + 1], labels[..i + 1], deliveryId, batchNumber, features)
            == if id in c.docs then c.(failed := true)
               else Creation(c.docs[id := PackageFor(stocks[i], deliveryId, batchNumber, features, labels[i])], c.ids + [id], c.failed)
  {
    assert stocks[..i + 1][..i] == stocks[..i] && labels[..i + 1][..i] == labels[..i];
  }

  /** The package made for `stock` under `tag`: sealed, with the barcode of its id. */
  function PackageFor(stock: string, deliveryId: string, batchNumber: string, features: SecurityFeatures,
                      tag: Label): (p: Package)
    ensures PackageWellFormed(p) && p.packageId == tag.id && p.barcode == Barcode(tag.id) && p.qrContent == tag.qr
    ensures p.currentStatus == Sealed && p.sealIntact && p.verificationHistory == [] && p.tamperEvidence == []
    ensures p.stock == stock && p.delivery == deliveryId && p.batchNumber == batchNumber && p.securityFeatures == features
  {
    NewPackage(stock, deliveryId, batchNumber, tag.id, tag.qr, Barcode(tag.id), features)
  }

  /** The state of the collection after the creations for some stocks, the ids created and whether one failed. */
  datatype Creation = Creation(docs: map<string, Package>, ids: seq<string>, failed: bool)

  /**
   * The creations for `stocks` in order: the `n`-th stock's package is made under the `n`-th tag,
   * unless its id is taken, which fails only this creation (the unique index on `packageId`).
   */
  function CreateAll(docs: map<string, Package>, stocks: seq<string>, labels: seq<Label>, deliveryId: string,
                     batchNumber: string, features: SecurityFeatures): Creation
    requires |labels| == |stocks|
    decreases |stocks|
  {
    if |stocks| == 0 then Creation(docs, [], false)
    else
      var n := |stocks| - 1;
      var c := CreateAll(docs, stocks[..n], labels[..n], deliveryId, batchNumber, features);
      var id := labels[n].id;
      if id in c.docs then c.(failed := true)
      else Creation(c.docs[id := PackageFor(stocks[n], deliveryId, batchNumber, features, labels[n])], c.ids + [id], c.failed)
  }

  /**
   * Existing packages are untouched, the new keys are the created ids, none of which existed, and a
   * creation failed exactly when fewer packages than stocks were made.
   */
  lemma {:induction false} CreateAllShape(docs: map<string, Package>, stocks: seq<string>, labels: seq<Label>,
                                          deliveryId: string, batchNumber: string, features: SecurityFeatures)
    requires |labels| == |stocks|
    ensures var c := CreateAll(docs, stocks, labels, deliveryId, batchNumber, features);
            && (forall k :: k in docs ==> k in c.docs && c.docs[k] == docs[k])
            && (forall k :: k in c.docs <==> k in docs || k in c.ids)
            && (forall j :: 0 <= j < |c.ids| ==> c.ids[j] !in docs)
            && |c.ids| <= |stocks|
            && (c.failed <==> |c.ids| < |stocks|)
    decreases |stocks|
  {
    if |stocks| > 0 {
      CreateAllShape(docs, stocks[..|stocks| - 1], labels[..|stocks| - 1], deliveryId, batchNumber, features);
    }
  }

  /** No id is created twice. */
  lemma {:induction false} CreateAllDistinct(docs: map<string, Package>, stocks: seq<string>, labels: seq<Label>,
                                             deliveryId: string, batchNumber: string, features: SecurityFeatures,
                                             i: nat, j: nat)
    requires |labels| == |stocks|
    requires i < j < |CreateAll(docs, stocks, labels, deliveryId, batchNumber, features).ids|
    ensures var c := CreateAll(docs, stocks, labels, deliveryId, batchNumber, features);
            c.ids[i] != c.ids[j]
    decreases |stocks|
  {
    var n := |stocks| - 1;
    var c := CreateAll(docs, stocks[..n], labels[..n], deliveryId, batchNumber, features);
    CreateAllShape(docs, stocks[..n], labels[..n], deliveryId, batchNumber, features);
    if j < |c.ids| {
      CreateAllDistinct(docs, stocks[..n], labels[..n], deliveryId, batchNumber, features, i, j);
    }
  }

  /** Every new package is the package of one of the stocks under one of the labels. */
  lemma {:induction false} CreateAllMade(docs: map<string, Package>, stocks: seq<string>, labels: seq<Label>,
                                         deliveryId: string, batchNumber: string, features: SecurityFeatures, k: string)
    requires |labels| == |stocks|
    requires var c := CreateAll(docs, stocks, labels, deliveryId, batchNumber, features);
             k in c.docs && k !in docs
    ensures var c := CreateAll(docs, stocks, labels, deliveryId, batchNumber, features);
            exists j :: 0 <= j < |stocks| && labels[j].id == k
                        && c.docs[k] == PackageFor(stocks[j], deliveryId, batchNumber, features, labels[j])
    decreases |stocks|
  {
    var n := |stocks| - 1;
    var c := CreateAll(docs, stocks[..n], labels[..n], deliveryId, batchNumber, features);
    if k in c.docs {
      CreateAllMade(docs, stocks[..n], labels[..n], deliveryId, batchNumber, features, k);
      var j :| 0 <= j < n && labels[..n][j].id == k
               && c.docs[k] == PackageFor(stocks[..n][j], deliveryId, batchNumber, features, labels[..n][j]);
      assert labels[..n][j] == labels[j] && stocks[..n][j] == stocks[j];
    } else {
      assert labels[n].id == k;
    }
  }

  /** When no creation failed, the `j`-th stock's package was made under the `j`-th tag. */
  lemma {:induction false} CreateAllComplete(docs: map<string, Package>, stocks: seq<string>, labels: seq<Label>,
                                             deliveryId: string, batchNumber: string, features: SecurityFeatures, j: nat)
    requires |labels| == |stocks|
    requires !CreateAll(docs, stocks, labels, deliveryId, batchNumber, features).failed && j < |stocks|
    ensures var c := CreateAll(docs, stocks, labels, deliveryId, batchNumber, features);
            && j < |c.ids|
            && c.ids[j] == labels[j].id
            && c.ids[j] in c.docs
            && c.docs[c.ids[j]] == PackageFor(stocks[j], deliveryId, batchNumber, features, labels[j])
    decreases |stocks|
  {
    var n := |stocks| - 1;
    var c := CreateAll(docs, stocks[..n], labels[..n], deliveryId, batchNumber, features);
    CreateAllShape(docs, stocks[..n], labels[..n], deliveryId, batchNumber, features);
    assert labels[n].id !in c.docs;
    if j < n {
      CreateAllComplete(docs, stocks[..n], labels[..n], deliveryId, batchNumber, features, j);
      assert stocks[..n][j] == stocks[j] && labels[..n][j] == labels[j];
    }
  }

  /** The ids of the labels are new and pairwise different. */
  ghost predicate FreshIds(docs: map<string, Package>, labels: seq<Label>) {
    && (forall j :: 0 <= j < |labels| ==> labels[j].id !in docs)
    && (forall i, j :: 0 <= i < j < |labels| ==> labels[i].id != labels[j].id)
  }

  /** Fresh labels are fresh labels up to the last one, whose id is new and unlike the others. */
  lemma FreshIdsLast(docs: map<string, Package>, labels: seq<Label>)
    requires |labels| > 0
    ensures var n := |labels| - 1;
            FreshIds(docs, labels) <==> && FreshIds(docs, labels[..n]) && labels[n].id !in docs
                                        && forall i :: 0 <= i < n ==> labels[i].id != labels[n].id
  {
    var n := |labels| - 1;
    assert forall i :: 0 <= i < n ==> labels[..n][i] == labels[i];
  }

  /** When no creation failed, the created ids are the ids of the labels in order, and only they are new. */
  lemma CreateAllIds(docs: map<string, Package>, stocks: seq<string>, labels: seq<Label>,
                     deliveryId: string, batchNumber: string, features: SecurityFeatures, k: string)
    requires |labels| == |stocks|
    requires !CreateAll(docs, stocks, labels, deliveryId, batchNumber, features).failed
    ensures k in CreateAll(docs, stocks, labels, deliveryId, batchNumber, features).docs
            <==> k in docs || exists i :: 0 <= i < |labels| && labels[i].id == k
  {
    var c := CreateAll(docs, stocks, labels, deliveryId, batchNumber, features);
    CreateAllShape(docs, stocks, labels, deliveryId, batchNumber, features);
    forall i | 0 <= i < |stocks|
      ensures c.ids[i] == labels[i].id
    {
      CreateAllComplete(docs, stocks, labels, deliveryId, batchNumber, features, i);
    }
    if k in c.ids {
      var i :| 0 <= i < |c.ids| && c.ids[i] == k;
      assert labels[i].id == k;
    }
  }

  /** Creation fails exactly when a tag's id exists or an earlier tag has it. */
  lemma {:induction false} CreateAllSucceeds(docs: map<string, Package>, stocks: seq<string>, labels: seq<Label>,
                                             deliveryId: string, batchNumber: string, features: SecurityFeatures)
    requires |labels| == |stocks|
    ensures !CreateAll(docs, stocks, labels, deliveryId, batchNumber, features).failed <==> FreshIds(docs, labels)
    decreases |stocks|
  {
    if |stocks| > 0 {
      var n := |stocks| - 1;
      var c := CreateAll(docs, stocks[..n], labels[..n], deliveryId, batchNumber, features);
      CreateAllSucceeds(docs, stocks[..n], labels[..n], deliveryId, batchNumber, features);
      FreshIdsLast(docs, labels);
      if !c.failed {
        CreateAllIds(docs, stocks[..n], labels[..n], deliveryId, batchNumber, features, labels[n].id);
        assert forall i :: 0 <= i < n ==> labels[..n][i] == labels[i];
      }
    }
  }

  /** The collection stays well formed. */
  lemma {:induction false} CreateAllWellFormed(docs: map<string, Package>, stocks: seq<string>, labels: seq<Label>,
                                               deliveryId: string, batchNumber: string, features: SecurityFeatures)
    requires |labels| == |stocks|
    requires PackagesWellFormed(docs)
    ensures PackagesWellFormed(CreateAll(docs, stocks, labels, deliveryId, batchNumber, features).docs)
    decreases |stocks|
  {
    if |stocks| > 0 {
      CreateAllWellFormed(docs, stocks[..|stocks| - 1], labels[..|stocks| - 1], deliveryId, batchNumber, features);
    }
  }

  /**
   * The creations of createPackaging, one per found stock in order, the `i`-th under the `i`-th
   * label.
   */
  method CreateEach(packages: Packages, found: seq<string>, labels: seq<Label>, deliveryId: string,
                    batchNumber: string, chosen: SecurityFeatures)
    returns (ids: seq<string>, failed: bool)
    requires |labels| == |found|
    modifies packages
    ensures CreateAll(old(packages.docs), found, labels, deliveryId, batchNumber, chosen) == Creation(packages.docs, ids, failed)
  {
    ids := [];
    failed := false;
    var i := 0;
    while i < |found|
      invariant 0 <= i <= |found|
      invariant CreateAll(old(packages.docs), found[..i], labels[..i], deliveryId, batchNumber, chosen)
                == Creation(packages.docs, ids, failed)
    {
      var id := labels[i].id;
      CreateAllStep(old(packages.docs), found, labels, deliveryId, batchNumber, chosen, i);
      if id in packages.docs {
        failed := true;
      } else {
        packages.docs := packages.docs[id := PackageFor(found[i], deliveryId, batchNumber, chosen, labels[i])];
        ids := ids + [id];
      }
      i := i + 1;
    }
    assert found[..|found|] == found && labels[..|found|] == labels;
  }

  /**
   * createPackaging, given the answer `found` of the stock query and the draws of the id generator:
   * 403 for other roles, 404 for a missing delivery or a listed stock that is missing (or listed
   * twice), and otherwise one creation per found stock; a failed creation gives 500, but the other
   * creations have happened.
   */
  method CreatePackaging(deliveries: Deliveries, stocks: Stocks, packages: Packages, user: User, deliveryId: string,
                         stockIds: seq<string>, batchNumber: string, features: Option<SecurityFeatures>,
                         found: seq<string>, draws: nat -> int, now: int)
    returns (r: Response<seq<string>>)
    requires packages.Valid() && FindsStocks(stocks.docs, stockIds, found)
    modifies packages
    ensures packages.Valid()
    ensures user.role !in PackagingRoles ==> r == Err(403)
    ensures user.role in PackagingRoles && deliveryId !in deliveries.docs ==> r == Err(404)
    ensures user.role in PackagingRoles && deliveryId in deliveries.docs && |found| != |stockIds| ==> r == Err(404)
    ensures r.Err? && r.status != 500 ==> unchanged(packages)
    ensures user.role in PackagingRoles && deliveryId in deliveries.docs && |found| == |stockIds| ==>
              var c := CreateAll(old(packages.docs), found, Labels(deliveryId, batchNumber, draws, now, |found|),
                                 deliveryId, batchNumber, features.GetOr(DefaultSecurityFeatures));
              && packages.docs == c.docs
              && r == (if c.failed then Err(500) else Ok(201, c.ids))
  {
    if user.role !in PackagingRoles {
      return Err(403);
    }
    if deliveryId !in deliveries.docs {
      return Err(404);
    }
    if |found| != |stockIds| {
      return Err(404);
    }
    var chosen := features.GetOr(DefaultSecurityFeatures);
    // Each callback of the map draws its id and writes its QR content before its first await, so
    // every label exists before the first creation.
    var labels := Labels(deliveryId, batchNumber, draws, now, |found|);
    var ids, failed := CreateEach(packages, found, labels, deliveryId, batchNumber, chosen);
    CreateAllWellFormed(old(packages.docs), found, labels, deliveryId, batchNumber, chosen);
    r := if failed then Err(500) else Ok(201, ids);
  }

  // ---------------------------------------------------------------------------------------------
  // The package updates
  // ---------------------------------------------------------------------------------------------

  /**
   * A route check: the entry is appended, and a suspicious entry moves a package that is not
   * compromised to in_transit.
   */
  function Checked(p: Package, entry: HistoryEntry): (r: Package)
    ensures r.verificationHistory == p.verificationHistory + [entry]
    ensures r.sealIntact == p.sealIntact && r.tamperEvidence == p.tamperEvidence
    ensures r.currentStatus == Compromised <==> p.currentStatus == Compromised
    ensures r.currentStatus != p.currentStatus ==> entry.status == Suspicious && r.currentStatus == InTransit
    ensures entry.status != Suspicious ==> r.currentStatus == p.currentStatus
    ensures PackageWellFormed(p) ==> PackageWellFormed(r)
  {
    var q := p.(verificationHistory := p.verificationHistory + [entry]);
    if entry.status == Suspicious && p.currentStatus != Compromised then q.(currentStatus := InTransit) else q
  }

  /**
   * verifyPackageIntegrity, given the answer `found` of the tracking query for the package's
   * delivery: 404 for a missing package or tracking record; otherwise the check is recorded as
   * suspicious exactly when the position is farther than planar distance 1, in degrees of
   * latitude and longitude, from every segment of the planned route (see `Geo.DegreeTolerance`).
   */
  method VerifyPackageIntegrity(packages: Packages, trackings: Trackings, user: User, packageId: string,
                                coordinates: Coord, notes: Option<string>, found: Option<string>, now: int)
    returns (r: Response<(CheckStatus, bool)>)
    requires packages.Valid()
    requires packageId in packages.docs ==> FindsTracking(trackings.docs, packages.docs[packageId].delivery, found)
    modifies packages
    ensures packages.Valid()
    ensures packageId !in old(packages.docs) ==> r == Err(404)
    ensures packageId in old(packages.docs) && found.None? ==> r == Err(404)
    ensures r.Err? ==> unchanged(packages)
    ensures packageId in old(packages.docs) && found.Some? ==>
              var near := NearRoute(coordinates, trackings.docs[found.value].plannedRoute, 1.0);
              var status := if near then Intact else Suspicious;
              var entry := HistoryEntry(now, coordinates, Some(user.id), status, notes);
              && packages.docs == old(packages.docs)[packageId := Checked(old(packages.docs)[packageId], entry)]
              && r == Ok(200, (status, near))
  {
    if packageId !in packages.docs {
      return Err(404);
    }
    if found.None? {
      return Err(404);
    }
    var near := IsPointNearRoute(coordinates, trackings.docs[found.value].plannedRoute, 1.0);
    var status := if near then Intact else Suspicious;
    var entry := HistoryEntry(now, coordinates, Some(user.id), status, notes);
    packages.docs := packages.docs[packageId := Checked(packages.docs[packageId], entry)];
    r := Ok(200, (status, near));
  }

  /** A tamper report: the seal is broken, the package compromised and the evidence appended. */
  function Tampered(p: Package, evidence: Evidence): (r: Package)
    ensures PackageWellFormed(r) && !r.sealIntact && r.currentStatus == Compromised
    ensures r.tamperEvidence == p.tamperEvidence + [evidence]
    ensures r.verificationHistory == p.verificationHistory && r.packageId == p.packageId && r.barcode == p.barcode
  {
    p.(sealIntact := false, currentStatus := Compromised, tamperEvidence := p.tamperEvidence + [evidence])
  }

  /**
   * reportTampering, given the answer `found` of the tracking query for the package's delivery: 404
   * for a missing package; otherwise the package is compromised and, when the delivery has a
   * tracking record, that record turns suspicious with one more tamper attempt.
   */
  method ReportPackageTampering(packages: Packages, trackings: Trackings, user: User, packageId: string,
                                coordinates: Coord, description: string, images: Option<seq<string>>,
                                found: Option<string>, now: int)
    returns (r: Response<(PackageStatus, seq<Evidence>)>)
    requires packages.Valid() && trackings.Valid()
    requires packageId in packages.docs ==> FindsTracking(trackings.docs, packages.docs[packageId].delivery, found)
    modifies packages, trackings
    ensures packages.Valid() && trackings.Valid()
    ensures packageId !in old(packages.docs) ==> r == Err(404) && unchanged(packages, trackings)
    ensures packageId in old(packages.docs) ==>
              var p := Tampered(old(packages.docs)[packageId],
                                Evidence(now, coordinates, Some(user.id), description, images.GetOr([])));
              && packages.docs == old(packages.docs)[packageId := p]
              && trackings.docs ==
                 (if found.None? then old(trackings.docs)
                  else old(trackings.docs)[found.value :=
                         TM.TamperReported(old(trackings.docs)[found.value],
                                           TM.TamperAttempt(now, "Package tampering: " + description, coordinates),
                                           "Package tampering reported: " + description)])
              && r == Ok(200, (Compromised, p.tamperEvidence))
  {
    if packageId !in packages.docs {
      return Err(404);
    }
    var evidence := Evidence(now, coordinates, Some(user.id), description, images.GetOr([]));
    var p := Tampered(packages.docs[packageId], evidence);
    packages.docs := packages.docs[packageId := p];
    if found.Some? {
      var attempt := TM.TamperAttempt(now, "Package tampering: " + description, coordinates);
      var t := TM.TamperReported(trackings.docs[found.value], attempt, "Package tampering reported: " + description);
      trackings.docs := trackings.docs[found.value := t];
    }
    r := Ok(200, (p.currentStatus, p.tamperEvidence));
  }

  /** A scan: the entry is appended and nothing else changes. */
  function Logged(p: Package, entry: HistoryEntry): (r: Package)
    ensures r.verificationHistory == p.verificationHistory + [entry]
    ensures r.(verificationHistory := p.verificationHistory) == p
  {
    p.(verificationHistory := p.verificationHistory + [entry])
  }

  /** The note of a scan made from the mobile app. */
  const ScanNote: string := "Scanned via mobile app"

  /**
   * scanPackage, given the answer `found` of the query the code classifies as: 404 when no package
   * matches; otherwise, when coordinates come with the scan, one intact entry is logged. The reply
   * is the package.
   */
  method ScanPackage(packages: Packages, user: User, code: string, coordinates: Option<Coord>,
                     found: Option<string>, now: int)
    returns (r: Response<Package>)
    requires packages.Valid() && FindsPackage(packages.docs, Classify(code), found)
    modifies packages
    ensures packages.Valid()
    ensures found.None? ==> r == Err(404) && unchanged(packages)
    ensures found.Some? ==>
              var p := old(packages.docs)[found.value];
              && packages.docs ==
                 (if coordinates.None? then old(packages.docs)
                  else old(packages.docs)[found.value :=
                         Logged(p, HistoryEntry(now, coordinates.value, Some(user.id), Intact, Some(ScanNote)))])
              && r == Ok(200, packages.docs[found.value])
              && r.value.currentStatus == p.currentStatus && r.value.sealIntact == p.sealIntact
  {
    if found.None? {
      return Err(404);
    }
    var k := found.value;
    if coordinates.Some? {
      var entry := HistoryEntry(now, coordinates.value, Some(user.id), Intact, Some(ScanNote));
      packages.docs := packages.docs[k := Logged(packages.docs[k], entry)];
    }
    r := Ok(200, packages.docs[k]);
  }

  /** A completion: the package is delivered and the entry appended. */
  function DeliveredPackage(p: Package, entry: HistoryEntry): (r: Package)
    ensures r.currentStatus == Delivered && r.verificationHistory == p.verificationHistory + [entry]
    ensures r.sealIntact == p.sealIntact && r.tamperEvidence == p.tamperEvidence
    ensures PackageWellFormed(p) ==> PackageWellFormed(r)
  {
    p.(currentStatus := Delivered, verificationHistory := p.verificationHistory + [entry])
  }

  /** The note of a completion that comes without one. */
  const CompletionNote: string := "Delivery completed"

  /**
   * completePackageDelivery: 404 for a missing package; otherwise the package is delivered whatever
   * its status, and the entry is intact exactly when the seal is.
   */
  method CompletePackageDelivery(packages: Packages, user: User, packageId: string, coordinates: Coord,
                                 notes: Option<string>, now: int)
    returns (r: Response<(PackageStatus, bool)>)
    requires packages.Valid()
    modifies packages
    ensures packages.Valid()
    ensures packageId !in old(packages.docs) ==> r == Err(404) && unchanged(packages)
    ensures packageId in old(packages.docs) ==>
              var p := old(packages.docs)[packageId];
              var entry := HistoryEntry(now, coordinates, Some(user.id), if p.sealIntact then Intact else Breached,
                                        Some(OrElse(notes, CompletionNote)));
              && packages.docs == old(packages.docs)[packageId := DeliveredPackage(p, entry)]
              && r == Ok(200, (Delivered, p.sealIntact))
  {
    if packageId !in packages.docs {
      return Err(404);
    }
    var p := packages.docs[packageId];
    var status := if p.sealIntact then Intact else Breached;
    var entry := HistoryEntry(now, coordinates, Some(user.id), status, Some(OrElse(notes, CompletionNote)));
    packages.docs := packages.docs[packageId := DeliveredPackage(p, entry)];
    r := Ok(200, (Delivered, p.sealIntact));
  }

  /**
   * The life of a package: once tampered it stays compromised through any route check or scan, its
   * seal stays broken, and completion still marks it delivered, recording the breach.
   */
  lemma TamperedStaysCompromised(p: Package, evidence: Evidence, check: HistoryEntry, scan: HistoryEntry,
                                 now: int, at: Coord, who: string, notes: Option<string>)
    ensures var q := Logged(Checked(Tampered(p, evidence), check), scan);
            && q.currentStatus == Compromised && !q.sealIntact
            && var e := HistoryEntry(now, at, Some(who), if q.sealIntact then Intact else Breached, notes);
               DeliveredPackage(q, e).currentStatus == Delivered && e.status == Breached
  {
  }
}
