/**
 * Strings over `char` (UTF-16 code units in the source): the `startsWith`
 * the action's schema uses, substring occurrence, used to state that text
 * appears verbatim in a prompt, and the inverse of a template literal.
 */
module Text {
  import opened Wrappers

  /** `s.startsWith(prefix)`: compares code units from the front. */
  function StartsWith(s: string, prefix: string): (b: bool)
    ensures b <==> prefix <= s
    decreases |prefix|
  {
    if prefix == [] then true
    else if s == [] then false
    else s[0] == prefix[0] && StartsWith(s[1..], prefix[1..])
  }

  /** `part` occurs verbatim in `s`: it starts at some position of `s`, tried from the front. */
  predicate Contains(s: string, part: string)
    decreases |s|
  {
    StartsWith(s, part) || (s != [] && Contains(s[1..], part))
  }

  /** `part` sits at index `i` of `s`. */
  predicate OccursAt(s: string, part: string, i: int) {
    0 <= i && i + |part| <= |s| && s[i..i + |part|] == part
  }

  /** An occurrence at any index is found by `Contains`. */
  lemma {:induction false} OccursAtIsContained(s: string, part: string, i: int)
    requires OccursAt(s, part, i)
    ensures Contains(s, part)
    decreases i
  {
    if i == 0 {
      assert part <= s;
    } else {
      assert s[1..][i - 1..i - 1 + |part|] == s[i..i + |part|];
      OccursAtIsContained(s[1..], part, i - 1);
    }
  }

  /** What `Contains` finds is an occurrence at some index. */
  lemma {:induction false} ContainedOccursAt(s: string, part: string) returns (i: int)
    requires Contains(s, part)
    ensures OccursAt(s, part, i)
    decreases |s|
  {
    if StartsWith(s, part) {
      i := 0;
      assert s[..|part|] == part;
    } else {
      var j := ContainedOccursAt(s[1..], part);
      i := j + 1;
      assert s[i..i + |part|] == s[1..][j..j + |part|];
    }
  }

  /** Whatever is spliced between two literal pieces of a template occurs in the result. */
  lemma SplicedIsContained(before: string, part: string, after: string)
    ensures Contains(before + part + after, part)
  {
    var s := before + part + after;
    assert s[|before|..|before| + |part|] == part;
    OccursAtIsContained(s, part, |before|);
  }

  /** The same, for a part that follows a fixed separator. */
  lemma SplicedAfterIsContained(before: string, separator: string, part: string, after: string)
    ensures Contains(before + (separator + part) + after, part)
  {
    assert before + (separator + part) + after == (before + separator) + part + after;
    SplicedIsContained(before + separator, part, after);
  }

  /** A run that straddles a spliced part and the literal pieces on either side of it occurs in the result. */
  lemma StraddleIsContained(before: string, left: string, part: string, right: string, rest: string, after: string)
    ensures Contains((before + left) + part + (right + rest) + after, left + part + right)
  {
    assert (before + left) + part + (right + rest) + after == before + (left + part + right) + (rest + after);
    SplicedIsContained(before, left + part + right, rest + after);
  }

  /** An occurrence inside an occurrence is an occurrence. */
  lemma ContainsTransitive(s: string, middle: string, part: string)
    requires Contains(s, middle) && Contains(middle, part)
    ensures Contains(s, part)
  {
    var i := ContainedOccursAt(s, middle);
    var j := ContainedOccursAt(middle, part);
    forall k | 0 <= k < |part| ensures s[i + j + k] == part[k] {
      assert s[i..i + |middle|][j + k] == middle[j + k];
      assert middle[j..j + |part|][k] == part[k];
    }
    assert s[i + j..i + j + |part|] == part;
    OccursAtIsContained(s, part, i + j);
  }

  /**
   * The inverse of a template literal `${head}${x}${tail}`: the `x` that `s`
   * was built from, if `s` has that frame.
   */
  function Unframe(head: string, tail: string, s: string): (r: Option<string>)
    ensures r.Some? <==> exists x :: s == head + x + tail
    ensures r.Some? ==> s == head + r.value + tail
  {
    if |head| + |tail| <= |s| && head <= s && s[|s| - |tail|..] == tail then
      var x := s[|head|..|s| - |tail|];
      assert s == head + x + tail;
      Some(x)
    else
      NoFrame(head, tail, s);
      None
  }

  lemma NoFrame(head: string, tail: string, s: string)
    requires !(|head| + |tail| <= |s| && head <= s && s[|s| - |tail|..] == tail)
    ensures forall x :: s != head + x + tail
  {
    forall x ensures s != head + x + tail {
      var t := head + x + tail;
      assert t[..|head|] == head && t[|t| - |tail|..] == tail;
    }
  }

  /** Building a template literal and taking it apart again gives back the spliced text. */
  lemma UnframeFrame(head: string, x: string, tail: string)
    ensures Unframe(head, tail, head + x + tail) == Some(x)
  {
    var s := head + x + tail;
    assert s[..|head|] == head;
    assert s[|s| - |tail|..] == tail;
    assert s[|head|..|s| - |tail|] == x;
  }

  /** The same, with two pieces spliced in next to each other. */
  lemma UnframeFrameTwo(head: string, x: string, y: string, tail: string)
    ensures Unframe(head, tail, head + x + y + tail) == Some(x + y)
  {
    assert head + x + y + tail == head + (x + y) + tail;
    UnframeFrame(head, x + y, tail);
  }

  /** A template literal with fixed pieces determines what was spliced into it. */
  lemma FrameInjective(head: string, x: string, y: string, tail: string)
    ensures head + x + tail == head + y + tail <==> x == y
  {
    if head + x + tail == head + y + tail {
      UnframeFrame(head, x, tail);
      UnframeFrame(head, y, tail);
    }
  }
}
