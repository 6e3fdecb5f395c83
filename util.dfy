/**
 * Small value types and string operations shared by the engine, the agent
 * runner and the scenario catalogue: an Option for JavaScript's `undefined`,
 * the two chat roles, ASCII lower-casing (`toLowerCase`), the substring tests
 * (`startsWith`, `includes`) and `Array.prototype.join`.
 */
module Util {

  /** A value that may be absent (`undefined` / `null` in the source). */
  datatype Option<T> = None | Some(value: T)

  /** A success value or an error message (a thrown `Error`). */
  datatype Result<T> = Ok(value: T) | Err(message: string)

  /** The speaker role of a chat message. */
  datatype Role = User | Assistant

  /** JavaScript truthiness of an optional string: present and not empty. */
  predicate Truthy(s: Option<string>) {
    s.Some? && s.value != ""
  }

  /** `a || b` on strings: `a` when it is truthy, otherwise `b`. */
  function OrElse(a: Option<string>, b: string): (r: string)
    ensures Truthy(a) ==> r == a.value
    ensures !Truthy(a) ==> r == b
  {
    if Truthy(a) then a.value else b
  }

  /** The text a template literal writes for a possibly undefined value. */
  function Interpolate(s: Option<string>): (r: string)
    ensures s.Some? ==> r == s.value
    ensures s.None? ==> r == "undefined"
  {
    match s
    case Some(v) => v
    case None => "undefined"
  }

  function LowerChar(c: char): char {
    if 'A' <= c <= 'Z' then (c as int + 32) as char else c
  }

  /** `toLowerCase`, restricted to the ASCII letters. */
  function Lower(s: string): (r: string) {
    seq(|s|, i requires 0 <= i < |s| => LowerChar(s[i]))
  }

  lemma LowerIdempotent(s: string)
    ensures Lower(Lower(s)) == Lower(s)
  {
    assert forall i :: 0 <= i < |s| ==> LowerChar(LowerChar(s[i])) == LowerChar(s[i]);
  }

  predicate StartsWith(s: string, prefix: string) {
    |prefix| <= |s| && s[..|prefix|] == prefix
  }

  /** `s.includes(p)`: `p` occurs at some position of `s`. */
  predicate Contains(s: string, p: string) {
    exists i: nat :: i <= |s| && OccursAt(s, p, i)
  }

  /** `p` occurs in `s` starting at position `i`. */
  predicate OccursAt(s: string, p: string, i: nat) {
    i + |p| <= |s| && s[i..i + |p|] == p
  }

  /** A string that contains `p` at position `i`. */
  lemma ContainsAt(s: string, p: string, i: nat)
    requires OccursAt(s, p, i)
    ensures Contains(s, p)
  {
  }

  /** Every character of an occurring substring occurs in the string. */
  lemma ContainsChar(s: string, p: string, k: nat)
    requires Contains(s, p) && k < |p|
    ensures p[k] in s
  {
    var i: nat :| i <= |s| && OccursAt(s, p, i);
    assert s[i..i + |p|][k] == p[k];
    assert s[i + k] == p[k];
  }

  /** `parts.join(sep)`: the parts in order, `sep` between neighbours. */
  function Join(parts: seq<string>, sep: string): string
    decreases |parts|
  {
    if |parts| == 0 then ""
    else if |parts| == 1 then parts[0]
    else Join(parts[..|parts| - 1], sep) + sep + parts[|parts| - 1]
  }

  /** Joining one more part appends the separator and that part. */
  lemma JoinSnoc(parts: seq<string>, x: string, sep: string)
    ensures Join(parts + [x], sep) == if parts == [] then x else Join(parts, sep) + sep + x
  {
    assert (parts + [x])[..|parts|] == parts;
  }

  /** The joined text of a prefix of the parts is a prefix of the joined text. */
  lemma {:induction false} JoinPrefix(parts: seq<string>, more: seq<string>, sep: string)
    ensures StartsWith(Join(parts + more, sep), Join(parts, sep))
    decreases |more|
  {
    if more == [] {
      assert parts + more == parts;
    } else {
      var init := more[..|more| - 1];
      var last := more[|more| - 1];
      assert parts + more == (parts + init) + [last];
      JoinPrefix(parts, init, sep);
      JoinSnoc(parts + init, last, sep);
      var j := Join(parts + init, sep);
      if parts + init != [] {
        assert (j + sep + last)[..|j|] == j;
      } else {
        assert parts == [];
      }
    }
  }

  /** Sequence prefix. */
  ghost predicate IsPrefix<T>(a: seq<T>, b: seq<T>) {
    |a| <= |b| && b[..|a|] == a
  }

  // The lemmas below are small connecting facts used across modules.

  lemma IsPrefixTrans<T>(a: seq<T>, b: seq<T>, c: seq<T>)
    requires IsPrefix(a, b) && IsPrefix(b, c)
    ensures IsPrefix(a, c)
  {
    assert c[..|a|] == c[..|b|][..|a|];
  }

  /** The part a chain of extensions adds is the sum of the parts each step adds. */
  lemma SuffixSplit<T>(a: seq<T>, b: seq<T>, c: seq<T>)
    requires IsPrefix(a, b) && IsPrefix(b, c)
    ensures c[|a|..] == b[|a|..] + c[|b|..]
  {
    assert c[..|b|] == b;
  }
}
