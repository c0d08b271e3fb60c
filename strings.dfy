/**
 * The two string operations the registry relies on: PHP's `rtrim($s, '/')`
 * and `str_replace($search, $replace, $subject)`, and the `defer` rewrite of
 * a script tag built from the latter.
 */
module Strings {

  /** `rtrim($s, '/')`: drop every trailing slash, keep everything else. */
  function TrimTrailingSlashes(s: string): (r: string)
    ensures |r| <= |s| && r == s[..|r|]
    ensures r == [] || r[|r| - 1] != '/'
    ensures forall i :: |r| <= i < |s| ==> s[i] == '/'
    decreases |s|
  {
    if |s| > 0 && s[|s| - 1] == '/' then TrimTrailingSlashes(s[..|s| - 1]) else s
  }

  /**
   * The three properties above pin the result down: any prefix of `s` that
   * does not end in '/' and is followed only by slashes is the trimmed string.
   */
  lemma TrimTrailingSlashesUnique(s: string, t: string)
    requires |t| <= |s| && t == s[..|t|]
    requires t == [] || t[|t| - 1] != '/'
    requires forall i :: |t| <= i < |s| ==> s[i] == '/'
    ensures t == TrimTrailingSlashes(s)
  {
  }

  /** Trimming twice is trimming once. */
  lemma TrimTrailingSlashesIdempotent(s: string)
    ensures TrimTrailingSlashes(TrimTrailingSlashes(s)) == TrimTrailingSlashes(s)
  {
  }

  /** `p` occurs in `s` starting at index `i`. */
  predicate OccursAt(s: string, p: string, i: int)
  {
    0 <= i && i + |p| <= |s| && s[i..i + |p|] == p
  }

  predicate Contains(s: string, p: string)
  {
    exists i | 0 <= i <= |s| :: OccursAt(s, p, i)
  }

  /**
   * `str_replace($search, $replace, $s)` for one search string: scan left to
   * right and replace every non-overlapping occurrence. An empty search
   * string leaves the subject as it is.
   */
  function ReplaceAll(s: string, search: string, replace: string): (r: string)
    ensures |r| == |s| + CountOccurrences(s, search) * (|replace| - |search|)
    decreases |s|
  {
    if search == [] || |s| < |search| then s
    else if s[..|search|] == search then
      MulSucc(CountOccurrences(s[|search|..], search), |replace| - |search|);
      replace + ReplaceAll(s[|search|..], search, replace)
    else [s[0]] + ReplaceAll(s[1..], search, replace)
  }

  /** How many occurrences ReplaceAll replaces. */
  function CountOccurrences(s: string, search: string): (n: nat)
    decreases |s|
  {
    if search == [] || |s| < |search| then 0
    else if s[..|search|] == search then 1 + CountOccurrences(s[|search|..], search)
    else CountOccurrences(s[1..], search)
  }

  /** An occurrence after the first character is an occurrence in the tail. */
  lemma OccursAtShift(s: string, p: string, i: int)
    requires |s| > 0 && i >= 1
    ensures OccursAt(s, p, i) <==> OccursAt(s[1..], p, i - 1)
  {
    if i + |p| <= |s| {
      assert s[1..][i - 1..i - 1 + |p|] == s[i..i + |p|];
    }
  }

  /** ReplaceAll replaces something exactly when the search string occurs. */
  lemma {:induction false} CountOccurrencesPositive(s: string, search: string)
    requires search != []
    ensures CountOccurrences(s, search) > 0 <==> Contains(s, search)
    decreases |s|
  {
    if |s| < |search| {
    } else if s[..|search|] == search {
      assert OccursAt(s, search, 0);
    } else {
      CountOccurrencesPositive(s[1..], search);
      if Contains(s, search) {
        var i :| 0 <= i <= |s| && OccursAt(s, search, i);
        assert i != 0;
        OccursAtShift(s, search, i);
        assert OccursAt(s[1..], search, i - 1);
      }
      if Contains(s[1..], search) {
        var j :| 0 <= j <= |s[1..]| && OccursAt(s[1..], search, j);
        OccursAtShift(s, search, j + 1);
        assert OccursAt(s, search, j + 1);
      }
    }
  }

  /** One more replacement adds one more length difference. */
  lemma MulSucc(c: int, k: int)
    ensures (1 + c) * k == k + c * k
  {
  }

  /**
   * When the replacement differs in length from the search string, the
   * subject comes back unchanged exactly when the search string does not
   * occur in it.
   */
  lemma ReplaceAllUnchangedIff(s: string, search: string, replace: string)
    requires search != [] && |replace| != |search|
    ensures ReplaceAll(s, search, replace) == s <==> !Contains(s, search)
  {
    CountOccurrencesPositive(s, search);
    var c := CountOccurrences(s, search);
    if c > 0 {
      ProductNonZero(c, |replace| - |search|);
      assert |ReplaceAll(s, search, replace)| != |s|;
    } else {
      ReplaceAllNoOccurrence(s, search, replace);
    }
  }

  /** With nothing to replace, ReplaceAll is the identity. */
  lemma {:induction false} ReplaceAllNoOccurrence(s: string, search: string, replace: string)
    requires CountOccurrences(s, search) == 0
    ensures ReplaceAll(s, search, replace) == s
    decreases |s|
  {
    if search == [] || |s| < |search| {
    } else {
      ReplaceAllNoOccurrence(s[1..], search, replace);
      assert s == [s[0]] + s[1..];
    }
  }

  lemma ProductNonZero(c: int, d: int)
    requires c > 0 && d != 0
    ensures c * d != 0
  {
  }

  // The defer rewrite of a script tag.
  const TAG_BOUNDARY: string := "><"
  const DEFERRED_BOUNDARY: string := " defer><"

  /** `str_replace('><', ' defer><', $tag)`: six characters longer per `><`. */
  function AddDefer(tag: string): (r: string)
    ensures |r| == |tag| + 6 * CountOccurrences(tag, TAG_BOUNDARY)
  {
    ReplaceAll(tag, TAG_BOUNDARY, DEFERRED_BOUNDARY)
  }

  /** The reverse rewrite: every ` defer><` back to `><`. */
  function RemoveDefer(tag: string): (r: string)
  {
    ReplaceAll(tag, DEFERRED_BOUNDARY, TAG_BOUNDARY)
  }

  /** `><` at index `i` of `s`. */
  predicate BoundaryAt(s: string, i: int)
  {
    0 <= i && i + 1 < |s| && s[i] == '>' && s[i + 1] == '<'
  }

  /** The first character of a rewritten tag. */
  lemma AddDeferHead(t: string)
    requires t != []
    ensures |AddDefer(t)| > 0
    ensures AddDefer(t)[0] == if |t| >= 2 && t[..2] == TAG_BOUNDARY then ' ' else t[0]
  {
  }

  /**
   * In a rewritten tag every `><` is preceded by the inserted ` defer`, so
   * none can start before index 6.
   */
  lemma {:induction false} AddDeferNoEarlyBoundary(t: string)
    ensures forall i :: 0 <= i < 6 ==> !BoundaryAt(AddDefer(t), i)
    decreases |t|
  {
    if |t| < 2 {
    } else if t[..2] == TAG_BOUNDARY {
      assert AddDefer(t) == DEFERRED_BOUNDARY + AddDefer(t[2..]);
    } else {
      var rest := AddDefer(t[1..]);
      assert AddDefer(t) == [t[0]] + rest;
      AddDeferNoEarlyBoundary(t[1..]);
      forall i | 0 <= i < 6 ensures !BoundaryAt(AddDefer(t), i) {
        if i == 0 && BoundaryAt(AddDefer(t), 0) {
          AddDeferHead(t[1..]);
          assert false;
        } else if i > 0 {
          assert BoundaryAt(AddDefer(t), i) ==> BoundaryAt(rest, i - 1);
        }
      }
    }
  }

  /** The defer rewrite loses nothing: undoing it gives the original tag back. */
  lemma {:induction false} RemoveDeferAddDefer(tag: string)
    ensures RemoveDefer(AddDefer(tag)) == tag
    decreases |tag|
  {
    if |tag| < 2 {
    } else if tag[..2] == TAG_BOUNDARY {
      var rest := AddDefer(tag[2..]);
      assert AddDefer(tag) == DEFERRED_BOUNDARY + rest;
      assert (DEFERRED_BOUNDARY + rest)[..8] == DEFERRED_BOUNDARY;
      assert (DEFERRED_BOUNDARY + rest)[8..] == rest;
      RemoveDeferAddDefer(tag[2..]);
      assert tag == TAG_BOUNDARY + tag[2..];
    } else {
      var rest := AddDefer(tag[1..]);
      var d := [tag[0]] + rest;
      assert AddDefer(tag) == d;
      RemoveDeferAddDefer(tag[1..]);
      if |d| >= 8 && d[..8] == DEFERRED_BOUNDARY {
        AddDeferNoEarlyBoundary(tag[1..]);
        assert rest[5] == d[6] && rest[6] == d[7];
        assert BoundaryAt(rest, 5);
        assert false;
      }
      assert d[1..] == rest;
      assert tag == [tag[0]] + tag[1..];
    }
  }

  /** Text without a '>' passes through the defer rewrite untouched. */
  lemma {:induction false} AddDeferPrefix(a: string, t: string)
    requires '>' !in a
    ensures AddDefer(a + t) == a + AddDefer(t)
    decreases |a|
  {
    if a != [] {
      var s := a + t;
      AddDeferPrefix(a[1..], t);
      if |s| < 2 {
        assert |TAG_BOUNDARY| == 2;
        assert t == [] && AddDefer(t) == t;
        assert AddDefer(s) == s;
      } else {
        assert s[..2] != TAG_BOUNDARY by {
          assert s[0] == a[0] && a[0] in a;
        }
        assert s[1..] == a[1..] + t;
        calc {
          AddDefer(s);
          [a[0]] + AddDefer(a[1..] + t);
          [a[0]] + (a[1..] + AddDefer(t));
          ([a[0]] + a[1..]) + AddDefer(t);
          { assert a == [a[0]] + a[1..]; }
          a + AddDefer(t);
        }
      }
    } else {
      assert a + t == t;
    }
  }

  /**
   * An empty element `<name></name>` gains exactly one `defer`, in its
   * opening tag; with name "script" this is `<script defer></script>`.
   */
  lemma AddDeferEmptyElement(name: string)
    requires '>' !in name
    ensures AddDefer("<" + name + "></" + name + ">") == "<" + name + " defer></" + name + ">"
  {
    var close := "/" + name;
    assert '>' !in close;
    AddDeferPrefix(close, ">");
    assert AddDefer(">") == ">";
    var rest := TAG_BOUNDARY + (close + ">");
    assert AddDefer(rest) == DEFERRED_BOUNDARY + (close + ">") by {
      assert rest[..2] == TAG_BOUNDARY;
      assert rest[2..] == close + ">";
    }
    var open := "<" + name;
    assert '>' !in open;
    AddDeferPrefix(open, rest);
    assert "<" + name + "></" + name + ">" == open + rest;
    assert "<" + name + " defer></" + name + ">" == open + (DEFERRED_BOUNDARY + (close + ">"));
  }


}
