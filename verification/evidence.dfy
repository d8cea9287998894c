/** Evidence paths of backend/app/agent/conversation_reply.py: the catalog of facts that is printed
    for the reviewing model, and the reading of a path that it cites. */
module Evidence {
  import opened Dotted
  import opened Outcomes

  datatype Json = Object(fields: seq<Field>) | List(items: seq<Json>) | Null | Scalar(text: string)

  datatype Field = Field(key: string, value: Json)

  datatype Fact = Fact(path: string, value: Json)

  // ---------------------------------------------------------------- the printed catalog

  function Child(path: string, key: string): string {
    if path != "" then path + "." + key else key
  }

  /** Every scalar of the facts with its path, in order. */
  function Catalog(value: Json, path: string): seq<Fact>
    decreases value, 0
  {
    match value
    case Object(fields) => CatalogFields(fields, path)
    case List(items) => CatalogItems(items, path, 0)
    case Null => []
    case Scalar(_) => [Fact(path, value)]
  }

  function CatalogFields(fields: seq<Field>, path: string): seq<Fact>
    decreases fields, 1
  {
    if fields == [] then []
    else Catalog(fields[0].value, Child(path, fields[0].key)) + CatalogFields(fields[1..], path)
  }

  function CatalogItems(items: seq<Json>, path: string, index: nat): seq<Fact>
    decreases items, 1
  {
    if items == [] then []
    else Catalog(items[0], path + "." + Decimal(index)) + CatalogItems(items[1..], path, index + 1)
  }

  function Decimal(n: nat): string {
    if n < 10 then [('0' as int + n) as char]
    else Decimal(n / 10) + [('0' as int + n % 10) as char]
  }

  // ---------------------------------------------------------------- reading a path

  /** Where the decimal digits of each script begin: the text of an index may use any of them. */
  const DIGIT_ZEROS: seq<int> := [0x30, 0x660, 0x6F0, 0x7C0, 0x966, 0x9E6, 0xA66, 0xAE6, 0xB66, 0xBE6, 0xC66,
                                  0xCE6, 0xD66, 0xDE6, 0xE50, 0xED0, 0xF20, 0x1040, 0x1090, 0x17E0, 0x1810,
                                  0x1946, 0x19D0, 0x1A80, 0x1A90, 0x1B50, 0x1BB0, 0x1C40, 0x1C50, 0xA620,
                                  0xA8D0, 0xA900, 0xA9D0, 0xA9F0, 0xAA50, 0xABF0, 0xFF10]

  predicate IsDigitAt(c: char, zero: int) {
    zero <= c as int < zero + 10
  }

  function DigitFrom(c: char, zeros: seq<int>): Option<nat> {
    if zeros == [] then None
    else if IsDigitAt(c, zeros[0]) then Some(c as int - zeros[0])
    else DigitFrom(c, zeros[1..])
  }

  function Digit(c: char): Option<nat> {
    DigitFrom(c, DIGIT_ZEROS)
  }

  function Number(s: string): Option<nat> {
    if s == "" then Some(0)
    else
      var front := Number(s[..|s| - 1]);
      var last := Digit(s[|s| - 1]);
      if front.Some? && last.Some? then Some(front.value * 10 + last.value) else None
  }

  function Index(part: string): Option<nat> {
    if part == "" then None else Number(part)
  }

  function FieldOf(fields: seq<Field>, key: string): Option<Json> {
    if fields == [] then None
    else if fields[0].key == key then Some(fields[0].value)
    else FieldOf(fields[1..], key)
  }

  function Step(value: Json, part: string): Result<Json> {
    match value
    case Object(fields) => if FieldOf(fields, part).Some? then Success(FieldOf(fields, part).value)
      else Failure(NotFound)
    case List(items) =>
      var i := Index(part);
      if i.Some? && i.value < |items| then Success(items[i.value]) else Failure(NotFound)
    case _ => Failure(NotFound)
  }

  function Walk(value: Json, parts: seq<string>): Result<Json>
    decreases |parts|
  {
    if parts == [] then Success(value)
    else match Step(value, parts[0])
      case Failure(e) => Failure(e)
      case Success(next) => Walk(next, parts[1..])
  }

  /** The scalar that a cited path names. An empty path is no citation. */
  function Resolve(facts: Json, path: string): Result<Json> {
    if path == "" then Failure(NotFound)
    else match Walk(facts, Split(path))
      case Success(Scalar(text)) => Success(Scalar(text))
      case _ => Failure(NotFound)
  }

  /** The check of one citation walks the path part by part. */
  method ReadEvidence(facts: Json, path: string) returns (r: Result<Json>)
    ensures r == Resolve(facts, path)
  {
    if path == "" {
      return Failure(NotFound);
    }
    var parts := Split(path);
    var value := facts;
    for n := 0 to |parts|
      invariant Walk(facts, parts) == Walk(value, parts[n..])
    {
      assert parts[n..][1..] == parts[n + 1..];
      var next := Step(value, parts[n]);
      if next.Failure? {
        return Failure(NotFound);
      }
      value := next.value;
    }
    r := if value.Scalar? then Success(value) else Failure(NotFound);
  }

  lemma ChildIsJoin(parts: seq<string>, key: string)
    requires AllPlain(parts)
    ensures Child(Join(parts), key) == Join(parts + [key])
  {
    JoinOneMore(parts, key);
  }

  // ---------------------------------------------------------------- decimals

  lemma {:induction false} DecimalReads(n: nat)
    ensures Index(Decimal(n)) == Some(n) && Plain(Decimal(n))
  {
    var last := ('0' as int + n % 10) as char;
    assert Digit(last) == Some(n % 10);
    if n < 10 {
      assert Decimal(n) == [last] && [last][..0] == "";
      assert Number("") == Some(0);
    } else {
      DecimalReads(n / 10);
      assert Decimal(n)[..|Decimal(n)| - 1] == Decimal(n / 10);
    }
  }

  // ---------------------------------------------------------------- the round trip

  /** Keys are not empty, hold no dot, and are unique in their object. */
  predicate WellKeyed(value: Json) {
    match value
    case Object(fields) =>
      && (forall i :: 0 <= i < |fields| ==> Plain(fields[i].key) && WellKeyed(fields[i].value))
      && (forall i, j :: 0 <= i < j < |fields| ==> fields[i].key != fields[j].key)
    case List(items) => forall i :: 0 <= i < |items| ==> WellKeyed(items[i])
    case _ => true
  }

  lemma {:induction false} FieldAt(fields: seq<Field>, i: nat)
    requires i < |fields| && forall a, b :: 0 <= a < b < |fields| ==> fields[a].key != fields[b].key
    ensures FieldOf(fields, fields[i].key) == Some(fields[i].value)
  {
    if i > 0 {
      FieldAt(fields[1..], i - 1);
    }
  }

  lemma {:induction false} FieldFound(fields: seq<Field>, key: string)
    requires FieldOf(fields, key).Some?
    ensures exists i :: 0 <= i < |fields| && fields[i].key == key && FieldOf(fields, key) == Some(fields[i].value)
  {
    if fields[0].key != key {
      FieldFound(fields[1..], key);
      var i :| 0 <= i < |fields[1..]| && fields[1..][i].key == key &&
                   FieldOf(fields, key) == Some(fields[1..][i].value);
      assert fields[i + 1] == fields[1..][i];
    }
  }

  lemma {:induction false} InFields(fields: seq<Field>, path: string, f: Fact)
    ensures f in CatalogFields(fields, path) <==>
              exists i :: 0 <= i < |fields| && f in Catalog(fields[i].value, Child(path, fields[i].key))
  {
    if fields != [] {
      InFields(fields[1..], path, f);
      if f in CatalogFields(fields[1..], path) {
        var i :| 0 <= i < |fields[1..]| && f in Catalog(fields[1..][i].value, Child(path, fields[1..][i].key));
        assert fields[i + 1] == fields[1..][i];
      }
      if i :| 0 <= i < |fields| && f in Catalog(fields[i].value, Child(path, fields[i].key)) {
        if i > 0 {
          assert fields[1..][i - 1] == fields[i];
        }
      }
    }
  }

  /** The fact is listed under item `i` of items numbered from `index`. */
  predicate UnderItem(items: seq<Json>, path: string, index: nat, i: nat, f: Fact) {
    i < |items| && f in Catalog(items[i], path + "." + Decimal(index + i))
  }

  lemma {:induction false} InItems(items: seq<Json>, path: string, index: nat, f: Fact)
    ensures f in CatalogItems(items, path, index) <==> exists i: nat :: UnderItem(items, path, index, i, f)
    decreases |items|
  {
    if items != [] {
      var rest := items[1..];
      InItems(rest, path, index + 1, f);
      assert f in Catalog(items[0], path + "." + Decimal(index)) <==> UnderItem(items, path, index, 0, f);
      hide Catalog, Decimal, UnderItem;
      if f in CatalogItems(rest, path, index + 1) {
        var i: nat :| UnderItem(rest, path, index + 1, i, f);
        NextItem(items, path, index, i, f);
      }
      if i: nat :| UnderItem(items, path, index, i, f) {
        if i > 0 {
          NextItem(items, path, index, i - 1, f);
        }
      }
    }
  }

  lemma NextItem(items: seq<Json>, path: string, index: nat, i: nat, f: Fact)
    requires items != []
    ensures UnderItem(items[1..], path, index + 1, i, f) <==> UnderItem(items, path, index, i + 1, f)
  {
    hide Catalog, Decimal;
    assert index + 1 + i == index + (i + 1);
  }

  /** Where the walk starts: below the root, or at a root that is an object. */
  predicate Rooted(value: Json, parts: seq<string>) {
    parts == [] ==> value.Object?
  }

  /** The same walk, each list index in plain decimal digits. */
  function Canonical(value: Json, rest: seq<string>): seq<string>
    requires Walk(value, rest).Success?
    decreases |rest|
  {
    if rest == [] then []
    else
      var part := if value.List? then Decimal(Index(rest[0]).value) else rest[0];
      [part] + Canonical(Step(value, rest[0]).value, rest[1..])
  }

  predicate Names(value: Json, parts: seq<string>, rest: seq<string>, f: Fact) {
    && AllPlain(rest) && f.path == Join(parts + rest)
    && Walk(value, rest) == Success(f.value) && f.value.Scalar?
    && Canonical(value, rest) == rest
  }

  lemma NamesBelow(value: Json, parts: seq<string>, part: string, child: Json, below: seq<string>, f: Fact)
    requires Step(value, part) == Success(child) && Plain(part) && Names(child, parts + [part], below, f)
    requires value.List? ==> Decimal(Index(part).value) == part
    ensures Names(value, parts, [part] + below, f)
  {
    assert parts + [part] + below == parts + ([part] + below);
    assert ([part] + below)[1..] == below;
  }

  /** Each catalog line below a value is a walk from it. */
  lemma {:induction false} CatalogLineWalks(value: Json, parts: seq<string>, f: Fact) returns (rest: seq<string>)
    requires WellKeyed(value) && AllPlain(parts) && Rooted(value, parts) && f in Catalog(value, Join(parts))
    ensures Names(value, parts, rest, f)
    decreases value
  {
    hide Names, Split, Join, Decimal, Index, CatalogFields, CatalogItems;
    match value
    case Object(fields) =>
      InFields(fields, Join(parts), f);
      var i :| 0 <= i < |fields| && f in Catalog(fields[i].value, Child(Join(parts), fields[i].key));
      ChildIsJoin(parts, fields[i].key);
      FieldAt(fields, i);
      var below := CatalogLineWalks(fields[i].value, parts + [fields[i].key], f);
      NamesBelow(value, parts, fields[i].key, fields[i].value, below, f);
      rest := [fields[i].key] + below;
    case List(items) =>
      InItems(items, Join(parts), 0, f);
      var i: nat :| UnderItem(items, Join(parts), 0, i, f);
      DecimalReads(i);
      JoinOneMore(parts, Decimal(i));
      var below := CatalogLineWalks(items[i], parts + [Decimal(i)], f);
      NamesBelow(value, parts, Decimal(i), items[i], below, f);
      rest := [Decimal(i)] + below;
    case Scalar(_) =>
      rest := [];
      ScalarNames(value, parts);
  }

  lemma ScalarNames(value: Json, parts: seq<string>)
    requires value.Scalar?
    ensures Names(value, parts, [], Fact(Join(parts), value))
  {
    assert parts + [] == parts;
  }

  predicate IsCatalogLine(value: Json, parts: seq<string>, canonical: seq<string>, found: Json) {
    AllPlain(canonical) && Fact(Join(parts + canonical), found) in Catalog(value, Join(parts))
  }

  lemma KeyIsPlain(key: string, canonical: seq<string>)
    requires Plain(key)
    ensures AllPlain(canonical) ==> AllPlain([key] + canonical)
  {
  }

  lemma LineInObject(value: Json, parts: seq<string>, i: nat, canonical: seq<string>, found: Json)
    requires value.Object? && i < |value.fields| && Plain(value.fields[i].key) && AllPlain(parts)
    requires IsCatalogLine(value.fields[i].value, parts + [value.fields[i].key], canonical, found)
    ensures IsCatalogLine(value, parts, [value.fields[i].key] + canonical, found)
  {
    hide Join, AllPlain;
    var key := value.fields[i].key;
    ChildIsJoin(parts, key);
    KeyIsPlain(key, canonical);
    assert parts + [key] + canonical == parts + ([key] + canonical);
    InFields(value.fields, Join(parts), Fact(Join(parts + ([key] + canonical)), found));
  }

  lemma LineInList(value: Json, parts: seq<string>, i: nat, canonical: seq<string>, found: Json)
    requires value.List? && i < |value.items| && AllPlain(parts) && parts != []
    requires IsCatalogLine(value.items[i], parts + [Decimal(i)], canonical, found)
    ensures IsCatalogLine(value, parts, [Decimal(i)] + canonical, found)
  {
    DecimalReads(i);
    JoinOneMore(parts, Decimal(i));
    assert parts + [Decimal(i)] + canonical == parts + ([Decimal(i)] + canonical);
    var f := Fact(Join(parts + ([Decimal(i)] + canonical)), found);
    assert UnderItem(value.items, Join(parts), 0, i, f);
    InItems(value.items, Join(parts), 0, f);
  }

  /** Each walk to a scalar is, in plain decimal, a catalog line. */
  lemma {:induction false} WalkIsCatalogLine(value: Json, parts: seq<string>, rest: seq<string>)
    requires WellKeyed(value) && AllPlain(parts) && Rooted(value, parts)
    requires Walk(value, rest).Success? && Walk(value, rest).value.Scalar?
    ensures IsCatalogLine(value, parts, Canonical(value, rest), Walk(value, rest).value)
    decreases value
  {
    if rest == [] {
      assert parts + [] == parts;
    } else {
      hide Join, Catalog, Decimal, IsCatalogLine, Index;
      match value
      case Object(fields) =>
        FieldFound(fields, rest[0]);
        var i :| 0 <= i < |fields| && fields[i].key == rest[0] && Step(value, rest[0]) == Success(fields[i].value);
        WalkIsCatalogLine(fields[i].value, parts + [rest[0]], rest[1..]);
        LineInObject(value, parts, i, Canonical(fields[i].value, rest[1..]), Walk(value, rest).value);
      case List(items) =>
        var i := Index(rest[0]).value;
        DecimalReads(i);
        WalkIsCatalogLine(items[i], parts + [Decimal(i)], rest[1..]);
        LineInList(value, parts, i, Canonical(items[i], rest[1..]), Walk(value, rest).value);
    }
  }

  /** Every path of the printed catalog resolves to exactly its scalar, and every path that
      resolves is a catalog path once its list indices are written in plain decimal digits. */
  lemma EvidenceRoundTrip(facts: Json)
    requires facts.Object? && WellKeyed(facts)
    ensures forall f :: f in Catalog(facts, "") ==> Resolve(facts, f.path) == Success(f.value)
    ensures forall path :: Resolve(facts, path).Success? ==>
              Walk(facts, Split(path)).Success?
              && Fact(Join(Canonical(facts, Split(path))), Resolve(facts, path).value) in Catalog(facts, "")
  {
    forall f | f in Catalog(facts, "") ensures Resolve(facts, f.path) == Success(f.value) {
      var rest := CatalogLineWalks(facts, [], f);
      assert [] + rest == rest;
      SplitUndoesJoin(rest);
      assert Split("") == [""];
    }
    forall path | Resolve(facts, path).Success?
      ensures Walk(facts, Split(path)).Success?
              && Fact(Join(Canonical(facts, Split(path))), Resolve(facts, path).value) in Catalog(facts, "")
    {
      WalkIsCatalogLine(facts, [], Split(path));
      assert [] + Canonical(facts, Split(path)) == Canonical(facts, Split(path));
    }
  }

  /** A path that resolves is itself printed exactly if its list indices are in plain decimal. */
  lemma PrintedIffCanonical(facts: Json, path: string)
    requires facts.Object? && WellKeyed(facts) && Resolve(facts, path).Success?
    ensures (exists f :: f in Catalog(facts, "") && f.path == path) <==>
              Canonical(facts, Split(path)) == Split(path)
  {
    EvidenceRoundTrip(facts);
    JoinUndoesSplit(path);
    if f :| f in Catalog(facts, "") && f.path == path {
      var rest := CatalogLineWalks(facts, [], f);
      assert [] + rest == rest;
      SplitUndoesJoin(rest);
    }
  }

  lemma OneHasManySpellings()
    ensures Index("1") == Index("01") == Index("\U{661}") == Some(1)
  {
    assert "01"[..1] == "0" && "0"[..0] == "" && "1"[..0] == "" && "\U{661}"[..0] == "";
    assert Digit('0') == Some(0) && Digit('1') == Some(1);
    assert DIGIT_ZEROS[1..][0] == 0x660;
    assert Digit('\U{661}') == Some(1);
    assert Number("") == Some(0) && Number("0") == Some(0);
  }

  /** The spellings do differ: an index with a leading zero, or in another script. */
  lemma IndicesHaveOtherSpellings(part: string)
    requires part in {"1", "01", "\U{661}"}
    ensures var facts := Object([Field("prices", List([Scalar("7"), Scalar("9")]))]);
            Resolve(facts, "prices." + part) == Success(Scalar("9"))
  {
    OneHasManySpellings();
    hide Index, Digit;
    assert '.' !in part;
    assert "prices" + "." + part == "prices." + part;
    SplitAtDot("prices", part);
    SplitPlain(part);
    SecondPrice(part);
  }

  lemma SecondPrice(part: string)
    requires Index(part) == Some(1)
    ensures Walk(Object([Field("prices", List([Scalar("7"), Scalar("9")]))]), ["prices", part]) == Success(Scalar("9"))
  {
    hide Index;
    var facts := Object([Field("prices", List([Scalar("7"), Scalar("9")]))]);
    assert ["prices", part][1..] == [part] && [part][1..] == [];
    assert Step(facts, "prices") == Success(List([Scalar("7"), Scalar("9")]));
    assert Walk(facts, ["prices", part]) == Walk(List([Scalar("7"), Scalar("9")]), [part]);
    assert Walk(List([Scalar("7"), Scalar("9")]), [part]) == Walk(Scalar("9"), []);
  }
}
