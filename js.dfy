/**
 * The small part of JavaScript's value semantics that the Google adapter
 * relies on: possibly-undefined strings and their truthiness, string
 * interpolation of `undefined`, `String.prototype.split` on one character,
 * `Array.prototype.join`, and `URLSearchParams` seen as an ordered list of
 * key/value pairs.
 */
module Js {

  datatype Option<+T> = None | Some(value: T)

  /** `!!s` for a `string | undefined`: exactly `undefined` and `""` are falsy. */
  predicate Truthy(s: Option<string>)
    ensures !Truthy(s) <==> s == None || s == Some("")
  {
    s.Some? && s.value != ""
  }

  /**
   * What a template literal or `URLSearchParams` makes of a `string | undefined`:
   * a defined string is kept, and only `undefined` and the string
   * `"undefined"` become indistinguishable.
   */
  function Interpolate(s: Option<string>): (r: string)
    ensures r != "undefined" ==> s == Some(r)
    ensures r == "undefined" <==> s.None? || s == Some("undefined")
  {
    if s.Some? then s.value else "undefined"
  }

  /**
   * `a ?? b` for a `string | undefined`: only `undefined` is replaced; unlike
   * `||`, an empty string is kept.
   */
  function Coalesce(a: Option<string>, b: string): (r: string)
    ensures r != b ==> a == Some(r)
    ensures r == b <==> a.None? || a == Some(b)
    ensures a == Some("") ==> r == ""
  {
    if a.Some? then a.value else b
  }

  /** `parts.join(sep)`. */
  function Join(parts: seq<string>, sep: string): string
    decreases |parts|
  {
    if |parts| == 0 then ""
    else if |parts| == 1 then parts[0]
    else parts[0] + sep + Join(parts[1..], sep)
  }

  /**
   * The join of a non-empty list starts with its first part, followed by the
   * separator when more parts follow, and ends with its last part.
   */
  lemma {:induction false} JoinEnds(parts: seq<string>, sep: string)
    requires |parts| >= 1
    ensures var r := Join(parts, sep);
      && |r| >= |parts[0]| && r[..|parts[0]|] == parts[0]
      && (|parts| >= 2 ==> r[|parts[0]|..|parts[0]| + |sep|] == sep)
      && |r| >= |parts[|parts| - 1]| && r[|r| - |parts[|parts| - 1]|..] == parts[|parts| - 1]
    decreases |parts|
  {
    if |parts| >= 2 {
      JoinEnds(parts[1..], sep);
    }
  }

  /**
   * `s.split(sep)` for a one-character separator: the pieces between the
   * separators, empty pieces included, and never an empty list
   * (`"".split(",")` is `[""]`).
   */
  function Split(s: string, sep: char): (parts: seq<string>)
    ensures |parts| >= 1
    ensures forall i :: 0 <= i < |parts| ==> sep !in parts[i]
    ensures Join(parts, [sep]) == s
    decreases |s|
  {
    if |s| == 0 then [""]
    else
      var rest := Split(s[1..], sep);
      if s[0] == sep then
        assert Join([""] + rest, [sep]) == [sep] + Join(rest, [sep]) by {
          assert ([""] + rest)[1..] == rest;
        }
        [""] + rest
      else
        var parts := [[s[0]] + rest[0]] + rest[1..];
        assert Join(parts, [sep]) == [s[0]] + Join(rest, [sep]) by {
          if |rest| > 1 {
            assert parts[1..] == rest[1..];
          }
        }
        parts
  }

  /** Splitting a separator-free word gives that word alone. */
  lemma {:induction false} SplitWord(w: string, sep: char)
    requires sep !in w
    ensures Split(w, sep) == [w]
    decreases |w|
  {
    if |w| > 0 {
      SplitWord(w[1..], sep);
      assert [w[0]] + w[1..] == w;
    }
  }

  /** A separator after a separator-free word ends exactly that piece. */
  lemma {:induction false} SplitAfterWord(w: string, sep: char, t: string)
    requires sep !in w
    ensures Split(w + [sep] + t, sep) == [w] + Split(t, sep)
    decreases |w|
  {
    var s := w + [sep] + t;
    if |w| == 0 {
      assert s[1..] == t;
    } else {
      assert s[1..] == w[1..] + [sep] + t;
      SplitAfterWord(w[1..], sep, t);
      assert [w[0]] + w[1..] == w;
    }
  }

  /**
   * `join` and `split` are inverse on a non-empty list of separator-free
   * pieces; together with Split's own contract this is a round trip in both
   * directions.
   */
  lemma {:induction false} SplitJoin(parts: seq<string>, sep: char)
    requires |parts| >= 1
    requires forall i :: 0 <= i < |parts| ==> sep !in parts[i]
    ensures Split(Join(parts, [sep]), sep) == parts
    decreases |parts|
  {
    if |parts| == 1 {
      SplitWord(parts[0], sep);
    } else {
      SplitJoin(parts[1..], sep);
      SplitAfterWord(parts[0], sep, Join(parts[1..], [sep]));
      assert [parts[0]] + parts[1..] == parts;
    }
  }

  /**
   * The decimal digits of a natural number, as `${n}` renders it: at least one
   * digit, a leading `0` only for zero itself, and digits that read back as `n`.
   */
  function DecimalString(n: nat): (r: string)
    ensures |r| >= 1
    ensures forall i :: 0 <= i < |r| ==> '0' <= r[i] <= '9'
    ensures r[0] == '0' <==> n == 0
    ensures n < 10 <==> |r| == 1
    ensures DigitsValue(r) == n
    decreases n
  {
    if n < 10 then
      assert [DigitChar(n)][..0] == [];
      [DigitChar(n)]
    else
      var prefix := DecimalString(n / 10);
      var r := prefix + [DigitChar(n % 10)];
      assert r[..|r| - 1] == prefix;
      r
  }

  function DigitChar(d: nat): (c: char)
    requires d < 10
    ensures '0' <= c <= '9'
    ensures c == '0' <==> d == 0
    ensures DigitValue(c) == d
  {
    ('0' as int + d) as char
  }

  /** A status such as 401 renders as its own digits. */
  lemma DecimalStringExample()
    ensures DecimalString(401) == "401"
  {
    assert DecimalString(4) == "4";
    assert DecimalString(40) == "40";
  }

  /** The value of one decimal digit character. */
  function DigitValue(c: char): nat
    requires '0' <= c <= '9'
  {
    c as int - '0' as int
  }

  /** The number a string of decimal digits denotes, most significant digit first; `""` denotes 0. */
  function DigitsValue(s: string): nat
    requires forall i :: 0 <= i < |s| ==> '0' <= s[i] <= '9'
    decreases |s|
  {
    if |s| == 0 then 0 else 10 * DigitsValue(s[..|s| - 1]) + DigitValue(s[|s| - 1])
  }

  /** The entries of a `URLSearchParams`, in insertion order. */
  type Params = seq<(string, string)>

  function Keys(ps: Params): (ks: seq<string>)
    ensures |ks| == |ps|
    ensures forall i :: 0 <= i < |ps| ==> ks[i] == ps[i].0
  {
    seq(|ps|, i requires 0 <= i < |ps| => ps[i].0)
  }

  /** `params.get(key)`: the value of the first entry with that key. */
  function Lookup(ps: Params, key: string): Option<string>
    decreases |ps|
  {
    if |ps| == 0 then None
    else if ps[0].0 == key then Some(ps[0].1)
    else Lookup(ps[1..], key)
  }

  /** `get` finds a key exactly when some entry has it, and then one of that key's values. */
  lemma {:induction false} LookupFound(ps: Params, key: string)
    ensures Lookup(ps, key).None? <==> key !in Keys(ps)
    ensures Lookup(ps, key).Some? ==> (key, Lookup(ps, key).value) in ps
    decreases |ps|
  {
    if |ps| > 0 && ps[0].0 != key {
      LookupFound(ps[1..], key);
      assert Keys(ps) == [ps[0].0] + Keys(ps[1..]);
      assert ps == [ps[0]] + ps[1..];
    }
  }

  /** No key occurs twice. */
  predicate DistinctKeys(ps: Params) {
    forall i, j :: 0 <= i < j < |ps| ==> ps[i].0 != ps[j].0
  }

  /** With distinct keys, `get` returns each entry's own value. */
  lemma {:induction false} LookupDistinct(ps: Params, i: nat)
    requires DistinctKeys(ps) && i < |ps|
    ensures Lookup(ps, ps[i].0) == Some(ps[i].1)
    decreases i
  {
    if i > 0 {
      assert ps[0].0 != ps[i].0;
      assert ps[1..][i - 1] == ps[i];
      LookupDistinct(ps[1..], i - 1);
    }
  }
}
