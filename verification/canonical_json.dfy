/**
 * The ledger's canonical serialiser `stable_json`: `json.dumps` with
 * `separators=(",", ":")`, `sort_keys=True` and `ensure_ascii=False`.
 * Objects keep their members in insertion order (a Python dict); the
 * encoder sorts them by key, so the text depends only on the content.
 */
module CanonicalJson {
  import opened Numerals

  datatype Value =
    | Null
    | Bool(b: bool)
    | Int(i: int)
    | Float(repr: string)      // the text of Python's float repr, taken as given
    | Str(s: string)
    | Array(items: seq<Value>)
    | Object(members: seq<Member>)

  datatype Member = Member(key: string, value: Value)

  /** A member after its value has been encoded: (key, text of the value). */
  type Pair = (string, string)

  // ---------------------------------------------------------------------
  // Key order: Python compares str keys code point by code point, and a
  // proper prefix sorts first.

  predicate KeyLess(a: string, b: string)
  {
    if a == [] then b != []
    else if b == [] then false
    else if a[0] != b[0] then a[0] < b[0]
    else KeyLess(a[1..], b[1..])
  }

  lemma {:induction false} KeyLessIrreflexive(a: string)
    ensures !KeyLess(a, a)
  {
    if a != [] {
      KeyLessIrreflexive(a[1..]);
    }
  }

  lemma {:induction false} KeyLessTransitive(a: string, b: string, c: string)
    requires KeyLess(a, b) && KeyLess(b, c)
    ensures KeyLess(a, c)
  {
    if a != [] && a[0] == b[0] && b[0] == c[0] {
      KeyLessTransitive(a[1..], b[1..], c[1..]);
    }
  }

  lemma {:induction false} KeyLessTotal(a: string, b: string)
    ensures a == b || KeyLess(a, b) || KeyLess(b, a)
  {
    if a != [] && b != [] && a[0] == b[0] {
      KeyLessTotal(a[1..], b[1..]);
      if a[1..] == b[1..] {
        assert a == [a[0]] + a[1..] && b == [b[0]] + b[1..];
      }
    }
  }

  lemma KeyLessAsymmetric(a: string, b: string)
    requires KeyLess(a, b)
    ensures !KeyLess(b, a)
  {
    if KeyLess(b, a) {
      KeyLessTransitive(a, b, a);
      KeyLessIrreflexive(a);
    }
  }

  // ---------------------------------------------------------------------
  // sort_keys: a stable insertion sort of the encoded members by key.

  function Insert(x: Pair, s: seq<Pair>): seq<Pair>
  {
    if s == [] then [x]
    else if KeyLess(x.0, s[0].0) then [x] + s
    else [s[0]] + Insert(x, s[1..])
  }

  function SortByKey(s: seq<Pair>): seq<Pair>
  {
    if s == [] then [] else Insert(s[|s| - 1], SortByKey(s[..|s| - 1]))
  }

  lemma {:induction false} InsertPermutes(x: Pair, s: seq<Pair>)
    ensures multiset(Insert(x, s)) == multiset(s) + multiset{x}
  {
    if s != [] && !KeyLess(x.0, s[0].0) {
      InsertPermutes(x, s[1..]);
      assert s == [s[0]] + s[1..];
    }
  }

  /** Sorting only reorders the members: nothing is lost or duplicated. */
  lemma {:induction false} SortByKeyPermutes(s: seq<Pair>)
    ensures multiset(SortByKey(s)) == multiset(s)
  {
    if s != [] {
      var init := s[..|s| - 1];
      SortByKeyPermutes(init);
      InsertPermutes(s[|s| - 1], SortByKey(init));
      assert s == init + [s[|s| - 1]];
    }
  }

  predicate DistinctKeys(s: seq<Pair>) {
    forall i, j :: 0 <= i < j < |s| ==> s[i].0 != s[j].0
  }

  predicate StrictlySorted(s: seq<Pair>) {
    forall i, j :: 0 <= i < j < |s| ==> KeyLess(s[i].0, s[j].0)
  }

  lemma InsertMembers(x: Pair, s: seq<Pair>, z: Pair)
    requires z in Insert(x, s)
    ensures z == x || z in s
  {
    InsertPermutes(x, s);
    assert z in multiset(Insert(x, s));
  }

  /** A key below every key of a strictly ordered list can go in front of it. */
  lemma ConsKeepsStrictOrder(y: Pair, t: seq<Pair>)
    requires StrictlySorted(t)
    requires forall z :: z in t ==> KeyLess(y.0, z.0)
    ensures StrictlySorted([y] + t)
  {
    var r := [y] + t;
    forall i, j | 0 <= i < j < |r| ensures KeyLess(r[i].0, r[j].0) {
      if i == 0 {
        assert r[j] in t;
      } else {
        assert r[i] == t[i - 1] && r[j] == t[j - 1];
      }
    }
  }

  lemma HeadBelowRest(s: seq<Pair>, z: Pair)
    requires StrictlySorted(s) && s != []
    requires z in s[1..]
    ensures KeyLess(s[0].0, z.0)
  {
    var k :| 0 <= k < |s[1..]| && s[1..][k] == z;
    assert s[k + 1] == z;
  }

  lemma {:induction false} InsertKeepsStrictOrder(x: Pair, s: seq<Pair>)
    requires StrictlySorted(s)
    requires forall y :: y in s ==> y.0 != x.0
    ensures StrictlySorted(Insert(x, s))
  {
    if s == [] {
    } else if KeyLess(x.0, s[0].0) {
      forall z | z in s ensures KeyLess(x.0, z.0) {
        if z != s[0] {
          assert z in s[1..];
          HeadBelowRest(s, z);
          KeyLessTransitive(x.0, s[0].0, z.0);
        }
      }
      ConsKeepsStrictOrder(x, s);
    } else {
      assert s[0] in s;
      KeyLessTotal(x.0, s[0].0);
      forall y | y in s[1..] ensures y.0 != x.0 { assert y in s; }
      InsertKeepsStrictOrder(x, s[1..]);
      forall z | z in Insert(x, s[1..]) ensures KeyLess(s[0].0, z.0) {
        InsertMembers(x, s[1..], z);
        if z != x {
          HeadBelowRest(s, z);
        }
      }
      ConsKeepsStrictOrder(s[0], Insert(x, s[1..]));
    }
  }

  lemma {:induction false} SortByKeyStrict(s: seq<Pair>)
    requires DistinctKeys(s)
    ensures StrictlySorted(SortByKey(s))
  {
    if s != [] {
      var init := s[..|s| - 1];
      var x := s[|s| - 1];
      SortByKeyStrict(init);
      SortByKeyPermutes(init);
      forall y | y in SortByKey(init) ensures y.0 != x.0 {
        assert y in multiset(SortByKey(init));
        assert y in init;
      }
      InsertKeepsStrictOrder(x, SortByKey(init));
    }
  }

  lemma SameElementsSameEmptiness(a: seq<Pair>, b: seq<Pair>)
    requires forall x :: x in a <==> x in b
    ensures a == [] <==> b == []
  {
    if a != [] { assert a[0] in a; }
    if b != [] { assert b[0] in b; }
  }

  /** Two strictly ordered member lists with the same elements are the same list. */
  lemma {:induction false} StrictlySortedUnique(a: seq<Pair>, b: seq<Pair>)
    requires StrictlySorted(a) && StrictlySorted(b)
    requires forall x :: x in a <==> x in b
    ensures a == b
  {
    SameElementsSameEmptiness(a, b);
    if a != [] {
      assert a[0] in b;
      assert b[0] in a;
      var j :| 0 <= j < |b| && b[j] == a[0];
      var i :| 0 <= i < |a| && a[i] == b[0];
      if j > 0 {
        if i > 0 {
          KeyLessAsymmetric(b[0].0, a[0].0);
        } else {
          KeyLessIrreflexive(b[0].0);
        }
      }
      forall x ensures x in a[1..] <==> x in b[1..] {
        if x in a[1..] {
          var k :| 0 <= k < |a[1..]| && a[1..][k] == x;
          assert KeyLess(a[0].0, a[k + 1].0);
          KeyLessIrreflexive(a[0].0);
          assert x in b;
        }
        if x in b[1..] {
          var k :| 0 <= k < |b[1..]| && b[1..][k] == x;
          assert KeyLess(b[0].0, b[k + 1].0);
          KeyLessIrreflexive(b[0].0);
          assert x in a;
        }
      }
      StrictlySortedUnique(a[1..], b[1..]);
      assert a == [a[0]] + a[1..] && b == [b[0]] + b[1..];
    }
  }

  // ---------------------------------------------------------------------
  // String escaping with ensure_ascii=False: only '"', '\' and the control
  // characters below U+0020 are escaped; every other character is copied.

  function HexDigit(d: nat): (c: char)
    requires d < 16
  {
    if d < 10 then (d + '0' as int) as char else (d - 10 + 'a' as int) as char
  }

  function HexValue(c: char): (d: nat)
    ensures d < 16
  {
    if '0' <= c <= '9' then c as int - '0' as int
    else if 'a' <= c <= 'f' then c as int - 'a' as int + 10
    else 0
  }

  function EscapeChar(c: char): (e: string)
    ensures |e| >= 1
  {
    if c == '"' then ['\\', '"']
    else if c == '\\' then ['\\', '\\']
    else if c == '\n' then ['\\', 'n']
    else if c == '\r' then ['\\', 'r']
    else if c == '\t' then ['\\', 't']
    else if c == 8 as char then ['\\', 'b']
    else if c == 12 as char then ['\\', 'f']
    else if c < ' ' then ['\\', 'u', '0', '0', HexDigit(c as int / 16), HexDigit(c as int % 16)]
    else [c]
  }

  function Escape(s: string): string
  {
    if s == [] then [] else EscapeChar(s[0]) + Escape(s[1..])
  }

  function Quote(s: string): string
  {
    "\"" + Escape(s) + "\""
  }

  /** The character a two-character escape `\e` stands for. */
  function ShortEscapeValue(e: char): char
  {
    if e == 'n' then '\n'
    else if e == 'r' then '\r'
    else if e == 't' then '\t'
    else if e == 'b' then 8 as char
    else if e == 'f' then 12 as char
    else e
  }

  /** Reads back the escapes that Escape writes (`\u00XX` for the other control characters). */
  function Unescape(s: string): string
  {
    if s == [] then []
    else if s[0] == '\\' && |s| >= 2 then
      if s[1] == 'u' && |s| >= 6 then [(16 * HexValue(s[4]) + HexValue(s[5])) as char] + Unescape(s[6..])
      else [ShortEscapeValue(s[1])] + Unescape(s[2..])
    else [s[0]] + Unescape(s[1..])
  }

  lemma UnescapeEscapeChar(c: char, rest: string)
    ensures Unescape(EscapeChar(c) + rest) == [c] + Unescape(rest)
  {
    var s := EscapeChar(c) + rest;
    if c == '"' || c == '\\' || c == '\n' || c == '\r' || c == '\t' || c == 8 as char || c == 12 as char {
      assert s[2..] == rest;
    } else if c < ' ' {
      assert s[6..] == rest;
      assert HexValue(s[4]) == c as int / 16;
      assert HexValue(s[5]) == c as int % 16;
    } else {
      assert s[1..] == rest;
    }
  }

  /** Escaping loses nothing: the escaped text decodes to the original string. */
  lemma {:induction false} EscapeRoundTrip(s: string)
    ensures Unescape(Escape(s)) == s
  {
    if s != [] {
      UnescapeEscapeChar(s[0], Escape(s[1..]));
      EscapeRoundTrip(s[1..]);
      assert s == [s[0]] + s[1..];
    }
  }

  // ---------------------------------------------------------------------
  // The encoder.

  /** Joins parts with the item separator ",". */
  function Join(parts: seq<string>): string
  {
    if parts == [] then ""
    else if |parts| == 1 then parts[0]
    else parts[0] + "," + Join(parts[1..])
  }

  /** One object member with the key separator ":". */
  function MemberText(p: Pair): string
  {
    Quote(p.0) + ":" + p.1
  }

  function MemberTexts(ps: seq<Pair>): (ts: seq<string>)
    ensures |ts| == |ps|
  {
    seq(|ps|, k requires 0 <= k < |ps| => MemberText(ps[k]))
  }

  /** stable_json: the canonical text of a value. */
  function Encode(v: Value): string
    decreases v, 1
  {
    match v
    case Null => "null"
    case Bool(b) => if b then "true" else "false"
    case Int(i) => IntText(i)
    case Float(repr) => repr
    case Str(s) => Quote(s)
    case Array(_) => ArrayText(v)
    case Object(_) => ObjectText(v)
  }

  /** A list: its items' texts, comma-separated, in order. */
  function ArrayText(v: Value): string
    requires v.Array?
    decreases v, 0
  {
    "[" + Join(seq(|v.items|, k requires 0 <= k < |v.items| => Encode(v.items[k]))) + "]"
  }

  /** A dict: its members' texts sorted by key, comma-separated. */
  function ObjectText(v: Value): string
    requires v.Object?
    decreases v, 0
  {
    var pairs := seq(|v.members|, k requires 0 <= k < |v.members| => (v.members[k].key, Encode(v.members[k].value)));
    "{" + Join(MemberTexts(SortByKey(pairs))) + "}"
  }

  /** The members of an object with their values encoded, in insertion order. */
  function Pairs(members: seq<Member>): (ps: seq<Pair>)
    ensures |ps| == |members|
  {
    seq(|members|, k requires 0 <= k < |members| => (members[k].key, Encode(members[k].value)))
  }

  lemma EncodeObject(members: seq<Member>)
    ensures Encode(Object(members)) == "{" + Join(MemberTexts(SortByKey(Pairs(members)))) + "}"
  {
    assert Encode(Object(members)) == ObjectText(Object(members));
  }

  /** A Python dict: no key occurs twice. */
  predicate UniqueKeys(members: seq<Member>) {
    forall i, j :: 0 <= i < j < |members| ==> members[i].key != members[j].key
  }

  /**
   * Insertion order does not matter: two dicts holding the same key/value
   * members, in any order, have the same canonical text.
   */
  lemma SameMembersEncodeAlike(a: seq<Member>, b: seq<Member>)
    requires UniqueKeys(a) && UniqueKeys(b)
    requires forall m :: m in a <==> m in b
    ensures Encode(Object(a)) == Encode(Object(b))
  {
    SameMembersSortAlike(a, b);
    EncodeObject(a);
    EncodeObject(b);
  }

  lemma PairsSubset(a: seq<Member>, b: seq<Member>)
    requires forall m :: m in a ==> m in b
    ensures forall x :: x in Pairs(a) ==> x in Pairs(b)
  {
    var pa, pb := Pairs(a), Pairs(b);
    forall x | x in pa ensures x in pb {
      var k :| 0 <= k < |pa| && pa[k] == x;
      assert a[k] in b;
      var k' :| 0 <= k' < |b| && b[k'] == a[k];
      assert pb[k'] == x;
    }
  }

  lemma UniqueKeysDistinct(a: seq<Member>)
    requires UniqueKeys(a)
    ensures DistinctKeys(Pairs(a))
  {
  }

  lemma SameMembersSortAlike(a: seq<Member>, b: seq<Member>)
    requires UniqueKeys(a) && UniqueKeys(b)
    requires forall m :: m in a <==> m in b
    ensures SortByKey(Pairs(a)) == SortByKey(Pairs(b))
  {
    var pa, pb := Pairs(a), Pairs(b);
    UniqueKeysDistinct(a);
    UniqueKeysDistinct(b);
    SortByKeyStrict(pa);
    SortByKeyStrict(pb);
    PairsSubset(a, b);
    PairsSubset(b, a);
    var sa, sb := SortByKey(pa), SortByKey(pb);
    SortByKeyPermutes(pa);
    SortByKeyPermutes(pb);
    forall x ensures x in sa <==> x in sb {
      assert x in sa <==> x in multiset(pa);
      assert x in sb <==> x in multiset(pb);
      assert x in multiset(pa) <==> x in pa;
      assert x in multiset(pb) <==> x in pb;
    }
    StrictlySortedUnique(sa, sb);
  }

  /**
   * sort_keys, stated without the sorting algorithm: the text of a dict is
   * `{`, the member texts of ANY key-ordered list of exactly its encoded
   * members joined by `,`, then `}`.
   */
  lemma EncodeObjectSorted(members: seq<Member>, s: seq<Pair>)
    requires UniqueKeys(members)
    requires StrictlySorted(s) && forall x :: x in s <==> x in Pairs(members)
    ensures Encode(Object(members)) == "{" + Join(MemberTexts(s)) + "}"
  {
    var ps := Pairs(members);
    UniqueKeysDistinct(members);
    SortByKeyStrict(ps);
    SortByKeyPermutes(ps);
    var sorted := SortByKey(ps);
    forall x ensures x in sorted <==> x in s {
      assert x in sorted <==> x in multiset(sorted);
      assert x in ps <==> x in multiset(ps);
    }
    StrictlySortedUnique(sorted, s);
    EncodeObject(members);
  }

  // ---------------------------------------------------------------------
  // No insignificant whitespace.

  predicate IsJsonWhitespace(c: char) {
    c == ' ' || c == '\t' || c == '\n' || c == '\r'
  }

  predicate NoWhitespace(s: string) {
    forall k :: 0 <= k < |s| ==> !IsJsonWhitespace(s[k])
  }

  predicate NoSpace(s: string) {
    forall k :: 0 <= k < |s| ==> s[k] != ' '
  }

  /** No key or string contains a space, and no float text contains whitespace. */
  predicate SpaceFree(v: Value)
    decreases v
  {
    match v
    case Float(repr) => NoWhitespace(repr)
    case Str(s) => NoSpace(s)
    case Array(items) => forall k :: 0 <= k < |items| ==> SpaceFree(items[k])
    case Object(members) => forall k :: 0 <= k < |members| ==> NoSpace(members[k].key) && SpaceFree(members[k].value)
    case _ => true
  }

  lemma {:induction false} EscapeNoWhitespace(s: string)
    requires NoSpace(s)
    ensures NoWhitespace(Escape(s))
  {
    if s != [] {
      EscapeNoWhitespace(s[1..]);
    }
  }

  lemma {:induction false} JoinNoWhitespace(parts: seq<string>)
    requires forall k :: 0 <= k < |parts| ==> NoWhitespace(parts[k])
    ensures NoWhitespace(Join(parts))
  {
    if |parts| > 1 {
      JoinNoWhitespace(parts[1..]);
    }
  }

  lemma NatTextNoWhitespace(n: nat)
    ensures NoWhitespace(NatText(n))
  {
    var s := NatText(n);
    forall k | 0 <= k < |s| ensures !IsJsonWhitespace(s[k]) {
      assert IsDigit(s[k]);
    }
  }

  /**
   * The canonical text has no whitespace of its own: every space in it comes
   * from a string or key, and tabs and line breaks never appear.
   */
  lemma {:induction false} EncodeNoWhitespace(v: Value)
    requires SpaceFree(v)
    ensures NoWhitespace(Encode(v))
    decreases v, 1
  {
    match v
    case Null =>
    case Bool(b) =>
    case Int(i) =>
      if i < 0 { NatTextNoWhitespace(-i); } else { NatTextNoWhitespace(i); }
    case Float(repr) =>
    case Str(s) =>
      EscapeNoWhitespace(s);
    case Array(items) =>
      ArrayNoWhitespace(v);
    case Object(members) =>
      ObjectNoWhitespace(v);
  }

  lemma {:induction false} ArrayNoWhitespace(v: Value)
    requires v.Array? && SpaceFree(v)
    ensures NoWhitespace(Encode(v))
    decreases v, 0
  {
    var items := v.items;
    var parts := seq(|items|, k requires 0 <= k < |items| => Encode(items[k]));
    forall k | 0 <= k < |parts| ensures NoWhitespace(parts[k]) {
      EncodeNoWhitespace(items[k]);
    }
    JoinNoWhitespace(parts);
    assert Encode(v) == ArrayText(v) == "[" + Join(parts) + "]";
  }

  lemma {:induction false} ObjectNoWhitespace(v: Value)
    requires v.Object? && SpaceFree(v)
    ensures NoWhitespace(Encode(v))
    decreases v, 0
  {
    var members := v.members;
    forall k | 0 <= k < |members| ensures NoWhitespace(Encode(members[k].value)) {
      EncodeNoWhitespace(members[k].value);
    }
    PairsNoWhitespace(members);
    SortedMembersNoWhitespace(Pairs(members));
    EncodeObject(members);
  }

  lemma PairsNoWhitespace(members: seq<Member>)
    requires forall k :: 0 <= k < |members| ==> NoSpace(members[k].key) && NoWhitespace(Encode(members[k].value))
    ensures forall p :: p in Pairs(members) ==> NoSpace(p.0) && NoWhitespace(p.1)
  {
    var pairs := Pairs(members);
    forall p | p in pairs ensures NoSpace(p.0) && NoWhitespace(p.1) {
      var k :| 0 <= k < |pairs| && pairs[k] == p;
    }
  }

  lemma SortedMembersNoWhitespace(pairs: seq<Pair>)
    requires forall p :: p in pairs ==> NoSpace(p.0) && NoWhitespace(p.1)
    ensures NoWhitespace(Join(MemberTexts(SortByKey(pairs))))
  {
    var sorted := SortByKey(pairs);
    SortByKeyPermutes(pairs);
    var texts := MemberTexts(sorted);
    forall k | 0 <= k < |texts| ensures NoWhitespace(texts[k]) {
      var p := sorted[k];
      assert p in multiset(pairs);
      assert p in pairs;
      MemberTextNoWhitespace(p);
    }
    JoinNoWhitespace(texts);
  }

  lemma MemberTextNoWhitespace(p: Pair)
    requires NoSpace(p.0) && NoWhitespace(p.1)
    ensures NoWhitespace(MemberText(p))
  {
    EscapeNoWhitespace(p.0);
  }
}
