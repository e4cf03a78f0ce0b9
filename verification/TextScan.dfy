/** Leftmost matching and deletion over text, and the laws of a tag language that the streaming filter relies on. */
module TextScan {

  /** Takes the text from some position on and answers the length of the match that starts there, or 0 when there
      is none. */
  type Matcher = string -> nat

  /** Position of the leftmost match, or |s|: what a regular-expression search finds. */
  function FindFirst(m: Matcher, s: string): (i: nat)
    ensures i <= |s|
  {
    if |s| == 0 || m(s) > 0 then 0 else 1 + FindFirst(m, s[1..])
  }

  /** Deletes the leftmost non-overlapping matches: substitution by the empty string. */
  function Remove(m: Matcher, s: string): string {
    if |s| == 0 then ""
    else if 0 < m(s) <= |s| then Remove(m, s[m(s)..])
    else [s[0]] + Remove(m, s[1..])
  }

  /** No match starts before position i. */
  ghost predicate NoneBefore(m: Matcher, s: string, i: nat)
    requires i <= |s|
  {
    forall k {:trigger m(s[k..])} | 0 <= k < i :: m(s[k..]) == 0
  }

  /** Appending t to s changes no match that starts before position i. */
  ghost predicate Steady(m: Matcher, s: string, t: string, i: nat)
    requires i <= |s|
  {
    forall k {:trigger m(s[k..] + t)} | 0 <= k < i :: m(s[k..] + t) == m(s[k..]) <= |s| - k
  }

  lemma {:induction false} FindFirstIs(m: Matcher, s: string)
    ensures NoneBefore(m, s, FindFirst(m, s))
    ensures FindFirst(m, s) < |s| ==> m(s[FindFirst(m, s)..]) > 0
  {
    if |s| > 0 {
      assert s[0..] == s;
      if m(s) == 0 {
        FindFirstIs(m, s[1..]);
        var i := FindFirst(m, s);
        assert s[i..] == s[1..][i - 1..];
        forall k | 0 <= k < i ensures m(s[k..]) == 0 {
          if k > 0 { assert s[k..] == s[1..][k - 1..]; assert m(s[1..][k - 1..]) == 0; }
        }
      }
    }
  }

  lemma {:induction false} FindFirstUnique(m: Matcher, s: string, i: nat)
    requires i <= |s| && NoneBefore(m, s, i)
    requires i < |s| ==> m(s[i..]) > 0
    ensures FindFirst(m, s) == i
  {
    FindFirstIs(m, s);
  }

  /** A leftmost match stays leftmost when the text grows without disturbing the matches up to it. */
  lemma {:induction false} FindFirstStays(m: Matcher, s: string, t: string)
    requires FindFirst(m, s) < |s| && Steady(m, s, t, FindFirst(m, s) + 1)
    ensures FindFirst(m, s + t) == FindFirst(m, s)
  {
    FindFirstIs(m, s);
    var u := s + t;
    forall k | 0 <= k <= FindFirst(m, s) ensures m(u[k..]) == m(s[k..]) {
      assert u[k..] == s[k..] + t;
      assert m(s[k..] + t) == m(s[k..]);
    }
    FindFirstUnique(m, u, FindFirst(m, s));
  }

  lemma {:induction false} RemoveNothing(m: Matcher, s: string)
    requires NoneBefore(m, s, |s|)
    ensures Remove(m, s) == s
  {
    if |s| > 0 {
      assert s[0..] == s;
      assert m(s[0..]) == 0;
      forall k | 0 <= k < |s[1..]| ensures m(s[1..][k..]) == 0 {
        assert s[1..][k..] == s[k + 1..];
        assert m(s[k + 1..]) == 0;
      }
      RemoveNothing(m, s[1..]);
    }
  }

  /** With nothing to delete before i, the match at i is the first to go. */
  lemma {:induction false} RemoveAt(m: Matcher, p: string, w: string)
    requires NoneBefore(m, p + w, |p|) && 0 < m(w) <= |w|
    ensures Remove(m, p + w) == p + Remove(m, w[m(w)..])
    decreases |p|
  {
    var s, r := p + w, Remove(m, w[m(w)..]);
    assert s[0..] == s;
    if |p| == 0 {
      assert s == w && p + r == r;
    } else {
      var q := p[1..];
      assert m(s[0..]) == 0;
      assert s[1..] == q + w;
      forall k | 0 <= k < |q| ensures m((q + w)[k..]) == 0 {
        assert (q + w)[k..] == s[k + 1..];
        assert m(s[k + 1..]) == 0;
      }
      RemoveAt(m, q, w);
      assert [p[0]] + (q + r) == p + r;
    }
  }

  /** Text before which nothing matches stays. */
  lemma {:induction false} RemoveSkip(m: Matcher, p: string, w: string)
    requires NoneBefore(m, p + w, |p|)
    ensures Remove(m, p + w) == p + Remove(m, w)
    decreases |p|
  {
    var s := p + w;
    if |p| == 0 {
      assert s == w && p + Remove(m, w) == Remove(m, w);
    } else {
      var q := p[1..];
      assert s[0..] == s && m(s[0..]) == 0;
      assert s[1..] == q + w;
      forall k | 0 <= k < |q| ensures m((q + w)[k..]) == 0 {
        assert (q + w)[k..] == s[k + 1..];
        assert m(s[k + 1..]) == 0;
      }
      RemoveSkip(m, q, w);
      assert [p[0]] + (q + Remove(m, w)) == p + Remove(m, w);
    }
  }

  /** Deleting splits at a seam that no match crosses. */
  lemma {:induction false} RemoveSplits(m: Matcher, p: string, q: string)
    requires Steady(m, p, q, |p|)
    ensures Remove(m, p + q) == Remove(m, p) + Remove(m, q)
    decreases |p|
  {
    if |p| == 0 {
      assert p + q == q;
    } else {
      assert p[0..] == p;
      assert m(p[0..] + q) == m(p[0..]);
      var n := if m(p) > 0 then m(p) else 1;
      var r := p[n..];
      assert (p + q)[n..] == r + q;
      forall i | 0 <= i < |r| ensures m(r[i..] + q) == m(r[i..]) <= |r| - i {
        assert r[i..] == p[n + i..];
        assert m(p[n + i..] + q) == m(p[n + i..]);
      }
      RemoveSplits(m, r, q);
    }
  }

  /**
   A language of open, close and stray tags, whether a close tag names the same element as an open
   one, the unfinished text that could still become a tag, and where the tail of a text that must
   wait for more input starts.
   */
  datatype Tags = Tags(open: Matcher, close: Matcher, stray: Matcher, same: (string, string) -> bool,
                       partial: string -> bool, hold: string -> nat) {

    /** A tag is decided by its own characters, and text that is not partial cannot become one. */
    ghost predicate Lawful() {
      OpenLaws() && StrayLaws() && CloseLaws() && PartialLaws() && HoldLaws()
    }

    ghost predicate OpenLaws() {
      && (forall s: string {:trigger OpenShape(s)} :: OpenShape(s))
      && (forall s: string, t: string {:trigger Grows(open, s, t)} :: Grows(open, s, t))
    }

    ghost predicate StrayLaws() {
      && (forall s: string {:trigger StrayShape(s)} :: StrayShape(s))
      && (forall s: string {:trigger StrayEnds(s)} :: StrayEnds(s))
      && (forall s: string, t: string {:trigger Grows(stray, s, t)} :: Grows(stray, s, t))
    }

    ghost predicate CloseLaws() {
      && (forall s: string {:trigger CloseShape(s)} :: CloseShape(s))
      && (forall s: string, t: string {:trigger CloseGrows(s, t)} :: CloseGrows(s, t))
    }

    ghost predicate PartialLaws() {
      && (forall s: string {:trigger PartialShape(s)} :: PartialShape(s))
      && (forall s: string {:trigger PartialEnds(s)} :: PartialEnds(s))
      && (forall s: string, t: string {:trigger PartialPrefix(s, t)} :: PartialPrefix(s, t))
    }

    ghost predicate HoldLaws() {
      && (forall s: string {:trigger HoldShape(s)} :: HoldShape(s))
      && (forall s: string {:trigger HoldEnds(s)} :: HoldEnds(s))
      && (forall p: string, v: string {:trigger HoldSkips(p, v)} :: HoldSkips(p, v))
      && (forall s: string, i: nat {:trigger HoldSeals(s, i)} :: HoldSeals(s, i))
      && (forall s: string {:trigger HoldWaits(s)} :: HoldWaits(s))
    }

    ghost predicate HoldShape(s: string) {
      hold(s) <= |s| && (hold(s) < |s| ==> s[hold(s)] == '<' && '<' !in s[hold(s) + 1..])
    }

    /** A tail that starts with its only '<' and has not met a '>' waits. */
    ghost predicate HoldWaits(s: string) {
      |s| > 0 && s[0] == '<' && '<' !in s[1..] && '>' !in s ==> hold(s) == 0
    }

    ghost predicate HoldEnds(s: string) {
      hold(s) <= |s| && '>' !in s[hold(s)..]
    }

    ghost predicate HoldSkips(p: string, v: string) {
      (|v| > 0 && v[0] == '<') || hold(p) == |p| ==> hold(p + v) == |p| + hold(v)
    }

    ghost predicate HoldSeals(s: string, i: nat) {
      hold(s) == |s| && i < |s| ==> !partial(s[i..])
    }

    ghost predicate OpenShape(s: string) {
      open(s) <= |s| && (open(s) > 0 ==> s[0] == '<' && stray(s) == open(s) && close(s) == 0)
    }

    ghost predicate StrayShape(s: string) {
      stray(s) <= |s|
    }

    /** A tag ends with the first '>' after its '<'. */
    ghost predicate StrayEnds(s: string) {
      0 < stray(s) <= |s| ==> s[0] == '<' && s[stray(s) - 1] == '>' && '>' !in s[..stray(s) - 1]
    }

    ghost predicate CloseShape(s: string) {
      && close(s) <= |s|
      && (close(s) > 0 ==> s[0] == '<' && s[close(s) - 1] == '>' && '>' !in s[..close(s) - 1] && '<' !in s[1..close(s)])
    }

    /** More text keeps a match; only partial text gains one, and then the match passes its end. */
    ghost predicate Grows(m: Matcher, s: string, t: string) {
      && (m(s) > 0 ==> m(s + t) == m(s))
      && (|s| > 0 && m(s) == 0 && m(s + t) > 0 ==> partial(s) && |s| < m(s + t))
    }

    /** Close tags hold no '<' but their first, so a later '<' settles that none starts here. */
    ghost predicate CloseGrows(s: string, t: string) {
      && (close(s) > 0 ==> close(s + t) == close(s))
      && (|s| > 0 && close(s) == 0 && '<' in s[1..] ==> close(s + t) == 0)
      && (0 < close(s + t) <= |s| ==> close(s) > 0)
    }

    ghost predicate PartialShape(s: string) {
      partial(s) ==> |s| > 0 && s[0] == '<'
    }

    ghost predicate PartialEnds(s: string) {
      partial(s) ==> '>' !in s
    }

    ghost predicate PartialPrefix(s: string, t: string) {
      |s| > 0 && partial(s + t) ==> partial(s)
    }

    lemma {:induction false} OpenLaw(s: string, t: string)
      requires Lawful()
      ensures OpenShape(s) && Grows(open, s, t)
    {}

    lemma {:induction false} StrayLaw(s: string, t: string)
      requires Lawful()
      ensures StrayShape(s) && StrayEnds(s) && Grows(stray, s, t)
    {}

    lemma {:induction false} CloseLaw(s: string, t: string)
      requires Lawful()
      ensures CloseShape(s) && CloseGrows(s, t)
    {}

    lemma {:induction false} PartialLaw(s: string, t: string)
      requires Lawful()
      ensures PartialPrefix(s, t)
    {}

    lemma {:induction false} HoldLaw(s: string)
      requires Lawful()
      ensures HoldShape(s) && HoldEnds(s)
    {}

    lemma {:induction false} HoldSkip(p: string, v: string)
      requires Lawful()
      ensures HoldSkips(p, v)
    {}

    lemma {:induction false} HoldSeal(s: string, i: nat)
      requires Lawful()
      ensures HoldSeals(s, i)
    {}

    lemma {:induction false} HoldWait(s: string)
      requires Lawful()
      ensures HoldWaits(s)
    {}
  }
}
