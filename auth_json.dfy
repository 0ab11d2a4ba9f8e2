/** The untyped values the authorization store reads back (JSON documents,
    legacy files, database rows), with Python's `int()`, `bool()` and
    `str()` conversions on them, and `_normalize_int_list`. */
module AuthJson {
  import opened Wrappers
  import opened Text

  /** A JSON value. Object keys are strings, as JSON and Firestore give them. */
  datatype Json =
    | JNull
    | JBool(b: bool)
    | JInt(i: int)
    | JStr(s: string)
    | JList(items: seq<Json>)
    | JObj(fields: map<string, Json>)

  /** The result of a conversion that may raise. */
  datatype Attempt<T> = Value(v: T) | Raises

  /** `d.get(key, default)`. */
  function Get(fields: map<string, Json>, key: string, default: Json): (r: Json)
    ensures key in fields ==> r == fields[key]
    ensures key !in fields ==> r == default
  {
    if key in fields then fields[key] else default
  }

  /** `bool(v)`. */
  predicate Truthy(v: Json)
  {
    match v
    case JNull => false
    case JBool(b) => b
    case JInt(i) => i != 0
    case JStr(s) => s != []
    case JList(xs) => xs != []
    case JObj(m) => m != map[]
  }

  predicate AllDigits(s: string)
  {
    forall i :: 0 <= i < |s| ==> IsDigit(s[i])
  }

  /** `int(s)` on a string already stripped of surrounding whitespace: an
      optional sign and at least one decimal digit. */
  function ParseInt(s: string): (r: Option<int>)
    ensures r.Some? ==> s != []
  {
    if s != [] && (s[0] == '-' || s[0] == '+') then
      if |s| > 1 && AllDigits(s[1..]) then
        var magnitude: int := DigitsValue(s[1..]);
        Some(if s[0] == '-' then -magnitude else magnitude)
      else None
    else if s != [] && AllDigits(s) then Some(DigitsValue(s))
    else None
  }

  /** `int(v)`; `None` where Python raises. */
  function ToInt(v: Json): Option<int>
  {
    match v
    case JBool(b) => Some(if b then 1 else 0)
    case JInt(i) => Some(i)
    case JStr(s) => ParseInt(Strip(s))
    case _ => None
  }

  /** `str(i)` for an integer. */
  function IntToString(i: int): (r: string)
    ensures r != [] && !IsSpace(r[0]) && !IsSpace(r[|r| - 1])
  {
    if i < 0 then "-" + NatToString(-i) else NatToString(i)
  }

  /** `int(str(i)) == i`. */
  lemma IntRoundTrip(i: int)
    ensures ToInt(JStr(IntToString(i))) == Some(i)
  {
    var s := IntToString(i);
    StripOfTrimmedString(s);
    if i < 0 {
      DigitsValueOfNatToString(-i);
      ParseSignedDigits(NatToString(-i));
    } else {
      DigitsValueOfNatToString(i);
      ParseDigits(NatToString(i));
    }
  }

  /** `int("-" + d)` for a run of digits `d`. */
  lemma ParseSignedDigits(d: string)
    requires d != [] && forall k :: 0 <= k < |d| ==> IsDigit(d[k])
    ensures ParseInt("-" + d) == Some(-(DigitsValue(d) as int))
  {
    assert ("-" + d)[1..] == d;
  }

  /** `int(d)` for a run of digits `d`. */
  lemma ParseDigits(d: string)
    requires d != [] && forall k :: 0 <= k < |d| ==> IsDigit(d[k])
    ensures ParseInt(d) == Some(DigitsValue(d))
  {
    assert IsDigit(d[0]);
  }

  lemma StripOfTrimmedString(s: string)
    requires s != [] && !IsSpace(s[0]) && !IsSpace(s[|s| - 1])
    ensures Strip(s) == s
  {
    assert StripLeft(s) == s;
  }

  /** `str(v)` for the scalar values; a list or object renders as the empty
      string in this model. */
  function StrOf(v: Json): string
  {
    match v
    case JStr(s) => s
    case JInt(i) => IntToString(i)
    case JBool(b) => if b then "True" else "False"
    case JNull => "None"
    case _ => ""
  }

  /** The entries `int()` accepts, in their order: the list the loop of
      `_normalize_int_list` builds before sorting. */
  function Converted(items: seq<Json>): seq<int>
    decreases |items|
  {
    if items == [] then []
    else
      var rest := Converted(items[..|items| - 1]);
      match ToInt(items[|items| - 1])
      case Some(n) => rest + [n]
      case None => rest
  }

  lemma {:induction false} ConvertedMembers(items: seq<Json>, x: int)
    ensures x in Converted(items) <==> exists j :: 0 <= j < |items| && ToInt(items[j]) == Some(x)
    decreases |items|
  {
    if items != [] {
      var init := items[..|items| - 1];
      var last := items[|items| - 1];
      ConvertedMembers(init, x);
      assert Converted(items) == Converted(init) + (if ToInt(last).Some? then [ToInt(last).value] else []);
      if x in Converted(items) {
        if x in Converted(init) {
          var j :| 0 <= j < |init| && ToInt(init[j]) == Some(x);
          assert items[j] == init[j];
        } else {
          assert ToInt(items[|items| - 1]) == Some(x);
        }
      }
      if exists j :: 0 <= j < |items| && ToInt(items[j]) == Some(x) {
        var j :| 0 <= j < |items| && ToInt(items[j]) == Some(x);
        if j < |init| {
          assert init[j] == items[j];
        }
      }
    }
  }

  predicate StrictlyIncreasing(s: seq<int>)
  {
    forall i, j :: 0 <= i < j < |s| ==> s[i] < s[j]
  }

  /** Inserts `x` into an increasing list unless it is already there. */
  function InsertUnique(s: seq<int>, x: int): (r: seq<int>)
    requires StrictlyIncreasing(s)
    ensures StrictlyIncreasing(r)
    ensures forall y :: y in r <==> y in s || y == x
  {
    if s == [] then [x]
    else if x < s[0] then [x] + s
    else if x == s[0] then s
    else
      var tail := s[1..];
      var rest := InsertUnique(tail, x);
      forall y | y in rest
        ensures s[0] < y
      {
        if y != x {
          var k :| 0 <= k < |tail| && tail[k] == y;
          assert s[k + 1] == y;
        }
      }
      PrependIncreasing(s[0], rest);
      assert s == [s[0]] + tail;
      [s[0]] + rest
  }

  lemma PrependIncreasing(h: int, rest: seq<int>)
    requires StrictlyIncreasing(rest)
    requires forall y :: y in rest ==> h < y
    ensures StrictlyIncreasing([h] + rest)
  {
    var r := [h] + rest;
    forall i, j | 0 <= i < j < |r|
      ensures r[i] < r[j]
    {
      assert r[j] == rest[j - 1];
      if i > 0 {
        assert r[i] == rest[i - 1];
      } else {
        assert rest[j - 1] in rest;
      }
    }
  }

  /** `sorted(set(xs))`. */
  function SortedUnique(xs: seq<int>): (r: seq<int>)
    ensures StrictlyIncreasing(r)
    ensures forall y :: y in r <==> y in xs
    decreases |xs|
  {
    if xs == [] then []
    else
      var r := InsertUnique(SortedUnique(xs[..|xs| - 1]), xs[|xs| - 1]);
      assert forall y :: y in xs <==> y in xs[..|xs| - 1] || y == xs[|xs| - 1];
      r
  }

  /** Two increasing lists with the same members are the same list, so the
      normalised list is determined by its members alone. */
  lemma {:induction false} IncreasingListsWithSameMembers(a: seq<int>, b: seq<int>)
    requires StrictlyIncreasing(a) && StrictlyIncreasing(b)
    requires forall y :: y in a <==> y in b
    ensures a == b
    decreases |a|
  {
    if a != [] {
      assert a[0] in a;
    }
    if b != [] {
      assert b[0] in b;
    }
    if a != [] && b != [] {
      var ka :| 0 <= ka < |b| && b[ka] == a[0];
      var kb :| 0 <= kb < |a| && a[kb] == b[0];
      HeadIsLeast(b, ka);
      HeadIsLeast(a, kb);
      assert a[0] == b[0];
      forall y
        ensures y in a[1..] <==> y in b[1..]
      {
        if y in a[1..] {
          TailMember(a, b, y);
        }
        if y in b[1..] {
          TailMember(b, a, y);
        }
      }
      IncreasingListsWithSameMembers(a[1..], b[1..]);
      assert a == [a[0]] + a[1..] && b == [b[0]] + b[1..];
    }
  }

  /** A member of one list's tail, past the shared head, is in the other
      list's tail. */
  lemma TailMember(a: seq<int>, b: seq<int>, y: int)
    requires StrictlyIncreasing(a) && StrictlyIncreasing(b)
    requires a != [] && b != [] && a[0] == b[0]
    requires y in a[1..] && y in b
    ensures y in b[1..]
  {
    var k :| 1 <= k < |a| && a[k] == y;
    var m :| 0 <= m < |b| && b[m] == y;
    assert m != 0;
    assert b[1..][m - 1] == y;
  }

  lemma HeadIsLeast(s: seq<int>, k: int)
    requires StrictlyIncreasing(s) && 0 <= k < |s|
    ensures s[0] <= s[k]
  {
  }

  /** What `_normalize_int_list` returns. */
  function IntList(v: Json): seq<int>
  {
    if v.JList? then SortedUnique(Converted(v.items)) else []
  }

  /** `_normalize_int_list`: a non-list gives `[]`; a list gives its
      `int()`-convertible entries, sorted, each once. */
  lemma IntListMeaning(v: Json, x: int)
    ensures StrictlyIncreasing(IntList(v))
    ensures !v.JList? ==> IntList(v) == []
    ensures v.JList? ==>
      (x in IntList(v) <==> exists j :: 0 <= j < |v.items| && ToInt(v.items[j]) == Some(x))
  {
    if v.JList? {
      ConvertedMembers(v.items, x);
    }
  }

  /** Normalising a normalised list changes nothing. */
  lemma {:induction false} IntListIdempotent(xs: seq<int>)
    requires StrictlyIncreasing(xs)
    ensures IntList(JList(seq(|xs|, i requires 0 <= i < |xs| => JInt(xs[i])))) == xs
  {
    var items := seq(|xs|, i requires 0 <= i < |xs| => JInt(xs[i]));
    var r := IntList(JList(items));
    forall y
      ensures y in r <==> y in xs
    {
      ConvertedMembers(items, y);
      if y in xs {
        var k :| 0 <= k < |xs| && xs[k] == y;
        assert ToInt(items[k]) == Some(y);
      }
    }
    IncreasingListsWithSameMembers(r, xs);
  }

  /** `_normalize_int_list` as its loop computes it. */
  method NormalizeIntList(values: Json) returns (r: seq<int>)
    ensures r == IntList(values)
  {
    if !values.JList? {
      return [];
    }
    var items := values.items;
    var out: seq<int> := [];
    var i := 0;
    while i < |items|
      invariant 0 <= i <= |items|
      invariant out == Converted(items[..i])
    {
      assert items[..i + 1][..i] == items[..i];
      var n := ToInt(items[i]);
      if n.Some? {
        out := out + [n.value];
      }
      i := i + 1;
    }
    assert items[..i] == items;
    r := SortedUnique(out);
  }
}
