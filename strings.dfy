/**
 * Go's `strings.Split(s, ",")` and its inverse `strings.Join(parts, ",")`, the only string
 * operations the cache uses: the list accessor stores the raw comma-delimited value and
 * splits it on every read.
 */
module Strings {

  const Comma: char := ','

  /** `strings.Join(parts, ",")`: the parts with one comma between neighbours. */
  function Join(parts: seq<string>): string
  {
    if |parts| == 0 then ""
    else if |parts| == 1 then parts[0]
    else parts[0] + [Comma] + Join(parts[1..])
  }

  /** No part contains the separator. */
  predicate NoComma(parts: seq<string>)
  {
    forall i :: 0 <= i < |parts| ==> Comma !in parts[i]
  }

  /**
   * `strings.Split(s, ",")`: the maximal comma-free pieces of `s`, in order. There is always at
   * least one piece, so "" splits to [""], and joining the pieces gives `s` back.
   */
  function Split(s: string): (parts: seq<string>)
    ensures |parts| >= 1
    ensures NoComma(parts)
    ensures Join(parts) == s
    decreases |s|
  {
    if s == [] then [""]
    else
      var rest := Split(s[1..]);
      if s[0] == Comma then
        assert [Comma] + s[1..] == s;
        [""] + rest
      else
        var parts := [[s[0]] + rest[0]] + rest[1..];
        assert parts[1..] == rest[1..];
        assert [s[0]] + s[1..] == s;
        parts
  }

  /** Length of the first field of `s`: the index of its first comma, or |s| if it has none. */
  function FieldEnd(s: string): (n: nat)
    ensures n <= |s|
  {
    if s == [] || s[0] == Comma then 0 else 1 + FieldEnd(s[1..])
  }

  lemma {:induction false} FieldEndAfter(x: string, t: string)
    requires Comma !in x
    ensures FieldEnd(x + t) == |x| + FieldEnd(t)
    decreases |x|
  {
    if x != [] {
      assert x[0] in x;
      assert (x + t)[1..] == x[1..] + t;
      assert Comma !in x[1..] by {
        forall i | 0 <= i < |x| - 1 ensures x[1..][i] != Comma { assert x[1..][i] == x[i + 1] && x[i + 1] in x; }
      }
      FieldEndAfter(x[1..], t);
      assert (x + t)[0] == x[0];
      assert FieldEnd(x + t) == 1 + FieldEnd(x[1..] + t);
    } else {
      assert x + t == t;
    }
  }

  /** In a join of comma-free parts, the first field is the first part, and a comma occurs iff there are several parts. */
  lemma {:induction false} JoinFirstField(parts: seq<string>)
    requires |parts| >= 1 && NoComma(parts)
    ensures FieldEnd(Join(parts)) == |parts[0]|
    ensures Join(parts)[..|parts[0]|] == parts[0]
    ensures Comma in Join(parts) <==> |parts| > 1
  {
    if |parts| == 1 {
      assert Join(parts) == parts[0] + [];
      FieldEndAfter(parts[0], []);
    } else {
      var tail := [Comma] + Join(parts[1..]);
      assert Join(parts) == parts[0] + tail;
      FieldEndAfter(parts[0], tail);
      assert Join(parts)[|parts[0]|] == Comma;
    }
  }

  /** Joining comma-free parts loses nothing: two such non-empty lists with the same join are equal. */
  lemma {:induction false} JoinInjective(a: seq<string>, b: seq<string>)
    requires |a| >= 1 && NoComma(a)
    requires |b| >= 1 && NoComma(b)
    requires Join(a) == Join(b)
    ensures a == b
    decreases |a|
  {
    JoinFirstField(a);
    JoinFirstField(b);
    assert a[0] == b[0];
    if |a| > 1 {
      var n := |a[0]| + 1;
      assert Join(a)[n..] == Join(a[1..]);
      assert Join(b)[n..] == Join(b[1..]);
      assert NoComma(a[1..]) && NoComma(b[1..]) by {
        forall i | 0 <= i < |a| - 1 ensures Comma !in a[1..][i] { assert a[1..][i] == a[i + 1]; }
        forall i | 0 <= i < |b| - 1 ensures Comma !in b[1..][i] { assert b[1..][i] == b[i + 1]; }
      }
      JoinInjective(a[1..], b[1..]);
      assert a == [a[0]] + a[1..] && b == [b[0]] + b[1..];
    }
  }

  /** Split inverts Join on comma-free parts: the list accessor returns exactly the list that was joined. */
  lemma {:induction false} SplitJoin(parts: seq<string>)
    requires |parts| >= 1 && NoComma(parts)
    ensures Split(Join(parts)) == parts
  {
    JoinInjective(Split(Join(parts)), parts);
  }

  /** The comma-split edge cases the list accessor must keep: "" is [""], "a,b,c" is ["a", "b", "c"], "a," is ["a", ""]. */
  lemma SplitExamples()
    ensures Split("") == [""]
    ensures Split("a,b,c") == ["a", "b", "c"]
    ensures Split("a,") == ["a", ""]
  {
    assert Join(["a", "b", "c"]) == "a,b,c";
    SplitJoin(["a", "b", "c"]);
    assert Join(["a", ""]) == "a,";
    SplitJoin(["a", ""]);
  }
}
