/**
 * Prompt templates and their placeholders.
 *
 * A template is a plain string and every substitution is a literal
 * `strings.ReplaceAll`. To reason about what a substitution does, a template
 * can also be viewed as a list of segments: literal text without `{`, and
 * placeholder slots. For templates that have such a view (all the built-in
 * ones do), `ReplaceAll` of a placeholder is exactly "fill that slot".
 */
module Templates {
  import opened Text

  const TextToken := "{TEXT}"
  const LanguageToken := "{LANGUAGE}"
  const MoodToken := "{MOOD_INSTRUCTION}"

  /** A placeholder: `{`, then a name with no braces, then `}`. */
  predicate IsToken(t: string) {
    && |t| >= 2 && t[0] == '{' && t[|t| - 1] == '}'
    && forall i | 0 < i < |t| - 1 :: t[i] != '{' && t[i] != '}'
  }

  lemma PlaceholdersAreTokens()
    ensures IsToken(TextToken) && IsToken(LanguageToken) && IsToken(MoodToken)
    ensures TextToken != LanguageToken && TextToken != MoodToken && LanguageToken != MoodToken
  {
  }

  predicate BraceFree(s: string) {
    '{' !in s
  }

  datatype Segment = Lit(text: string) | Slot(token: string)

  function SegmentText(g: Segment): string {
    match g
    case Lit(t) => t
    case Slot(t) => t
  }

  function Render(segs: seq<Segment>): string {
    if segs == [] then [] else SegmentText(segs[0]) + Render(segs[1..])
  }

  /** Literal pieces have no `{`; slots are placeholders. */
  predicate WellFormed(segs: seq<Segment>) {
    forall k | 0 <= k < |segs| ::
      match segs[k]
      case Lit(t) => BraceFree(t)
      case Slot(t) => IsToken(t)
  }

  /** Every slot for `token` replaced by the segments `fill`. */
  function Substitute(segs: seq<Segment>, token: string, fill: seq<Segment>): (r: seq<Segment>)
  {
    if segs == [] then []
    else (if segs[0] == Slot(token) then fill else [segs[0]]) + Substitute(segs[1..], token, fill)
  }

  lemma {:induction false} RenderAppend(a: seq<Segment>, b: seq<Segment>)
    ensures Render(a + b) == Render(a) + Render(b)
  {
    if a == [] {
      assert a + b == b;
    } else {
      assert (a + b)[1..] == a[1..] + b;
      RenderAppend(a[1..], b);
    }
  }

  lemma {:induction false} SubstituteAppend(a: seq<Segment>, b: seq<Segment>, token: string, fill: seq<Segment>)
    ensures Substitute(a + b, token, fill) == Substitute(a, token, fill) + Substitute(b, token, fill)
  {
    if a == [] {
      assert a + b == b;
    } else {
      assert (a + b)[1..] == a[1..] + b;
      SubstituteAppend(a[1..], b, token, fill);
    }
  }

  // ----- ReplaceAll on the three kinds of prefix -----

  /** Text without `{` is copied unchanged: no placeholder can start inside it. */
  lemma {:induction false} ReplaceAllSkipsBraceFree(a: string, x: string, pat: string, rep: string)
    requires BraceFree(a) && pat != [] && pat[0] == '{'
    ensures ReplaceAll(a + x, pat, rep) == a + ReplaceAll(x, pat, rep)
    decreases |a|
  {
    if a == [] {
      assert a + x == x;
    } else {
      var s := a + x;
      assert s[0] == a[0] && a[0] in a;
      assert !StartsWith(s, pat);
      assert s[1..] == a[1..] + x;
      assert BraceFree(a[1..]) by {
        assert forall c | c in a[1..] :: c in a;
      }
      ReplaceAllSkipsBraceFree(a[1..], x, pat, rep);
      calc {
        ReplaceAll(s, pat, rep);
        [s[0]] + ReplaceAll(s[1..], pat, rep);
        [a[0]] + (a[1..] + ReplaceAll(x, pat, rep));
        { assert [a[0]] + a[1..] == a; }
        a + ReplaceAll(x, pat, rep);
      }
    }
  }

  lemma ReplaceAllAtPattern(pat: string, x: string, rep: string)
    requires pat != []
    ensures ReplaceAll(pat + x, pat, rep) == rep + ReplaceAll(x, pat, rep)
  {
    assert (pat + x)[..|pat|] == pat;
    assert (pat + x)[|pat|..] == x;
  }

  /** A different placeholder is copied unchanged. */
  lemma ReplaceAllSkipsOtherToken(q: string, x: string, pat: string, rep: string)
    requires IsToken(q) && IsToken(pat) && q != pat
    ensures ReplaceAll(q + x, pat, rep) == q + ReplaceAll(x, pat, rep)
  {
    var s := q + x;
    assert !StartsWith(s, pat) by {
      if |pat| <= |q| {
        assert s[..|pat|] == q[..|pat|];
        assert q[|pat| - 1] == s[|pat| - 1];
      } else {
        assert s[|q| - 1] == q[|q| - 1];
      }
    }
    assert s[0] == q[0];
    assert s[1..] == q[1..] + x;
    assert BraceFree(q[1..]) by {
      forall i | 0 <= i < |q[1..]| ensures q[1..][i] != '{' {
        assert q[1..][i] == q[i + 1];
      }
    }
    ReplaceAllSkipsBraceFree(q[1..], x, pat, rep);
    assert [q[0]] + q[1..] == q;
  }

  /**
   * On a well-formed segment list, replacing a placeholder is filling its slots:
   * the scan never finds the placeholder anywhere but at its own slots.
   */
  lemma {:induction false} ReplaceAllFillsSlots(segs: seq<Segment>, pat: string, fill: seq<Segment>)
    requires WellFormed(segs) && IsToken(pat)
    ensures ReplaceAll(Render(segs), pat, Render(fill)) == Render(Substitute(segs, pat, fill))
  {
    if segs != [] {
      var g, rest := segs[0], segs[1..];
      assert WellFormed(rest) by {
        forall k | 0 <= k < |rest| ensures rest[k] == segs[k + 1] { }
      }
      ReplaceAllFillsSlots(rest, pat, fill);
      var tail := Substitute(rest, pat, fill);
      match g
      case Lit(t) =>
        assert segs[0] == Lit(t);
        ReplaceAllSkipsBraceFree(t, Render(rest), pat, Render(fill));
        assert Render([g] + tail) == t + Render(tail) by {
          assert ([g] + tail)[1..] == tail;
        }
      case Slot(q) =>
        if q == pat {
          ReplaceAllAtPattern(pat, Render(rest), Render(fill));
          RenderAppend(fill, tail);
        } else {
          assert segs[0] == Slot(q);
          ReplaceAllSkipsOtherToken(q, Render(rest), pat, Render(fill));
          assert Render([g] + tail) == q + Render(tail) by {
            assert ([g] + tail)[1..] == tail;
          }
        }
    }
  }

  lemma {:induction false} SubstitutePreservesWellFormed(segs: seq<Segment>, token: string, fill: seq<Segment>)
    requires WellFormed(segs) && WellFormed(fill)
    ensures WellFormed(Substitute(segs, token, fill))
  {
    if segs != [] {
      assert WellFormed(segs[1..]) by {
        forall k | 0 <= k < |segs[1..]| ensures segs[1..][k] == segs[k + 1] { }
      }
      SubstitutePreservesWellFormed(segs[1..], token, fill);
      var head := if segs[0] == Slot(token) then fill else [segs[0]];
      var tail := Substitute(segs[1..], token, fill);
      assert WellFormed(head) by {
        if segs[0] != Slot(token) {
          assert head[0] == segs[0];
        }
      }
      forall k | 0 <= k < |head + tail|
        ensures match (head + tail)[k] case Lit(t) => BraceFree(t) case Slot(t) => IsToken(t)
      {
        if k < |head| {
          assert (head + tail)[k] == head[k];
        } else {
          assert (head + tail)[k] == tail[k - |head|];
        }
      }
    }
  }

  /** The slots left after a substitution: the others, plus those the fill brings. */
  lemma {:induction false} SubstituteSlots(segs: seq<Segment>, token: string, fill: seq<Segment>, t: string)
    ensures Slot(t) in Substitute(segs, token, fill) <==>
              (Slot(t) in segs && t != token) || (Slot(token) in segs && Slot(t) in fill)
  {
    if segs != [] {
      SubstituteSlots(segs[1..], token, fill, t);
      assert segs == [segs[0]] + segs[1..];
      assert Slot(t) in segs <==> segs[0] == Slot(t) || Slot(t) in segs[1..];
      assert Slot(token) in segs <==> segs[0] == Slot(token) || Slot(token) in segs[1..];
    }
  }

  lemma {:induction false} SubstituteWithoutSlot(segs: seq<Segment>, token: string, fill: seq<Segment>)
    requires Slot(token) !in segs
    ensures Substitute(segs, token, fill) == segs
  {
    if segs != [] {
      assert segs[1..] == segs[1..];
      assert Slot(token) !in segs[1..] by {
        forall k | 0 <= k < |segs[1..]| ensures segs[1..][k] == segs[k + 1] { }
      }
      SubstituteWithoutSlot(segs[1..], token, fill);
      assert [segs[0]] + segs[1..] == segs;
    }
  }

  /** Each segment's text appears in the rendering. */
  lemma {:induction false} RenderContainsSegment(segs: seq<Segment>, k: nat)
    requires k < |segs|
    ensures Contains(Render(segs), SegmentText(segs[k]))
  {
    var head, rest := SegmentText(segs[0]), Render(segs[1..]);
    if k == 0 {
      ContainsAt(head + rest, head, 0);
    } else {
      RenderContainsSegment(segs[1..], k - 1);
      assert segs[1..][k - 1] == segs[k];
      ContainsInAppend(head, rest, SegmentText(segs[k]));
    }
  }

  /** A literal piece of a template appears in its rendering. */
  lemma RenderContainsLiteral(segs: seq<Segment>, v: string)
    requires Lit(v) in segs
    ensures Contains(Render(segs), v)
  {
    var k :| 0 <= k < |segs| && segs[k] == Lit(v);
    RenderContainsSegment(segs, k);
  }

  /** A well-formed template contains a placeholder exactly when it has a slot for it. */
  lemma ContainsIffSlot(segs: seq<Segment>, t: string)
    requires WellFormed(segs) && IsToken(t)
    ensures Contains(Render(segs), t) <==> Slot(t) in segs
  {
    if Slot(t) in segs {
      var k :| 0 <= k < |segs| && segs[k] == Slot(t);
      RenderContainsSegment(segs, k);
    } else {
      ReplaceAllFillsSlots(segs, t, []);
      SubstituteWithoutSlot(segs, t, []);
      assert Render([]) == [];
      DeleteAllShrinks(Render(segs), t);
    }
  }

  // ----- Filling a placeholder with plain text -----

  /** Every slot for `token` replaced by the literal text `v`. */
  function Fill(segs: seq<Segment>, token: string, v: string): seq<Segment> {
    Substitute(segs, token, [Lit(v)])
  }

  /**
   * On a well-formed template, `ReplaceAll` with brace-free text is `Fill`: the
   * result is again well formed and has exactly the other slots.
   */
  lemma FillByReplaceAll(segs: seq<Segment>, token: string, v: string)
    requires WellFormed(segs) && IsToken(token) && BraceFree(v)
    ensures ReplaceAll(Render(segs), token, v) == Render(Fill(segs, token, v))
    ensures WellFormed(Fill(segs, token, v))
    ensures forall t :: Slot(t) in Fill(segs, token, v) <==> Slot(t) in segs && t != token
  {
    assert Render([Lit(v)]) == v;
    ReplaceAllFillsSlots(segs, token, [Lit(v)]);
    assert WellFormed([Lit(v)]);
    SubstitutePreservesWellFormed(segs, token, [Lit(v)]);
    forall t ensures Slot(t) in Fill(segs, token, v) <==> Slot(t) in segs && t != token {
      SubstituteSlots(segs, token, [Lit(v)], t);
    }
  }

  /** A fill keeps every literal piece and, when the slot is there, brings the value in as one. */
  lemma {:induction false} FillKeepsLiterals(segs: seq<Segment>, token: string, v: string, x: string)
    requires Lit(x) in segs || (Slot(token) in segs && x == v)
    ensures Lit(x) in Fill(segs, token, v)
  {
    var head := if segs[0] == Slot(token) then [Lit(v)] else [segs[0]];
    var rest := Fill(segs[1..], token, v);
    assert segs == [segs[0]] + segs[1..];
    if segs[0] == Lit(x) || (segs[0] == Slot(token) && x == v) {
      assert (head + rest)[0] == Lit(x);
    } else {
      FillKeepsLiterals(segs[1..], token, v, x);
      var k :| 0 <= k < |rest| && rest[k] == Lit(x);
      assert (head + rest)[|head| + k] == Lit(x);
    }
  }

  /** Replacing a placeholder by brace-free text in a well-formed template leaves no occurrence of it. */
  lemma ReplaceAllRemovesToken(segs: seq<Segment>, token: string, v: string)
    requires WellFormed(segs) && IsToken(token) && BraceFree(v)
    ensures !Contains(ReplaceAll(Render(segs), token, v), token)
  {
    FillByReplaceAll(segs, token, v);
    ContainsIffSlot(Fill(segs, token, v), token);
  }

  /** A placeholder `{` + a + b, with the whole placeholder between a and b, joins up again once it is removed. */
  lemma {:induction false} ReplaceAllJoinsUp(a: string, b: string, pat: string)
    requires |pat| > 0 && pat[0] == '{' && BraceFree(a) && BraceFree(b)
    requires !StartsWith("{" + a + pat + b, pat)
    ensures ReplaceAll("{" + a + pat + b, pat, []) == "{" + a + b
  {
    var s := "{" + a + pat + b;
    assert ReplaceAll(pat + b, pat, []) == b by {
      ReplaceAllSkipsBraceFree(b, [], pat, []);
      assert b + [] == b;
      ReplaceAllAtPattern(pat, b, []);
    }
    assert ReplaceAll(s[1..], pat, []) == a + b by {
      ReplaceAllSkipsBraceFree(a, pat + b, pat, []);
      assert s[1..] == a + (pat + b);
    }
    assert s[0] == '{';
    assert "{" + a + b == "{" + (a + b);
  }

  /**
   * Without the well-formedness, removing a placeholder can create one: the
   * text around an occurrence joins up into a new occurrence, which
   * `ReplaceAll` never rescans.
   */
  lemma ReplaceAllCanRecreateToken()
    ensures ReplaceAll("{" + "MOOD_" + MoodToken + "INSTRUCTION}", MoodToken, []) == MoodToken
  {
    assert MoodToken == "{" + "MOOD_" + "INSTRUCTION}";
    assert !StartsWith("{" + "MOOD_" + MoodToken + "INSTRUCTION}", MoodToken) by {
      assert ("{" + "MOOD_" + MoodToken + "INSTRUCTION}")[6] != MoodToken[6];
    }
    ReplaceAllJoinsUp("MOOD_", "INSTRUCTION}", MoodToken);
  }
}
