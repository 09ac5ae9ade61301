/**
 * The shaping loop of ArabCoverHelper::convert as a function of its input:
 * Step is one iteration, Run folds it over the input from the left, and
 * Shape is the list of output slots that convert fills. The lemmas state
 * what the loop promises: the tentative form, the correction of the slot
 * before, the LAM+ALEF ligature, pass-through, and the length of the output.
 */
module Shaping {
  import opened Options
  import opened Tables

  /**
   * The variables convert carries from one position to the next: the
   * filled output slots ($list[0 .. $j-1]), the carried class ($bt), the
   * form written last ($ppfwc) and the code point read last ($prev).
   */
  datatype ShapeState = ShapeState(list: seq<nat>, bt: BegType, ppfwc: Option<nat>, prev: Option<nat>)

  const Start := ShapeState([], WdBeg, None, None)

  /** The range that convert shapes; its upper bound 0x06FF is excluded. */
  predicate InBasicRange(w: int)
  {
    BPAD <= w < BMAX
  }

  /** A code point that convert shapes: in the basic range and with a record. */
  predicate Shaped(w: int)
  {
    InBasicRange(w) && ShapingEntry(w).Some?
  }

  /**
   * The loop invariant of convert: a class other than WdBeg is carried only
   * right after a shaped letter, whose isolated or end form is in the last
   * slot and whose class is the carried one.
   */
  predicate Inv(st: ShapeState)
  {
    st.bt != WdBeg ==>
      && |st.list| >= 1
      && st.prev.Some? && Shaped(st.prev.value)
      && st.ppfwc == Some(st.list[|st.list| - 1])
      && var e := ShapingEntry(st.prev.value).value;
         && (st.list[|st.list| - 1] == e.iForm || st.list[|st.list| - 1] == e.eForm)
         && st.bt == e.bType
  }

  /** The form a shaped letter first receives under the carried class. */
  function Tentative(bt: BegType, syn: UG): (r: nat)
    ensures r == syn.iForm || r == syn.eForm
    ensures IsFormOf(r, syn)
  {
    match bt
    case WdBeg | InBeg => syn.iForm
    case NoBeg => syn.eForm
  }

  /** The record of LAM, which convert looks up as $cm. */
  const LamEntry: UG := ShapingEntry(KeyBasic('l' as int)).value

  /** Whether Step merges word into the slot before as a LAM+ALEF ligature. */
  predicate Merges(st: ShapeState, word: nat)
  {
    && Shaped(word) && st.bt != WdBeg && word == KeyBasic('a' as int)
    && (st.ppfwc == Some(LamEntry.iForm) || st.ppfwc == Some(LamEntry.eForm))
  }

  /**
   * One iteration of convert's loop on the code point word. It keeps the
   * invariant, adds at most one slot, and changes no slot but the one that
   * was last before it.
   */
  function Step(st: ShapeState, word: nat): (r: ShapeState)
    requires Inv(st)
    ensures Inv(r)
    ensures |r.list| == |st.list| + (if Merges(st, word) then 0 else 1)
    ensures |st.list| >= 1 ==> r.list[..|st.list| - 1] == st.list[..|st.list| - 1]
  {
    if Shaped(word) then
      var syn := ShapingEntry(word).value;
      var pfwc := Tentative(st.bt, syn);
      if st.bt != WdBeg then
        var cm := LamEntry;
        var j := |st.list|;
        if st.ppfwc == Some(cm.iForm) && word == KeyBasic('a' as int) then
          st.(list := st.list[j - 1 := LA], bt := WdBeg)
        else if st.ppfwc == Some(cm.eForm) && word == KeyBasic('a' as int) then
          st.(list := st.list[j - 1 := LA_FINAL], bt := WdBeg)
        else
          var tsyn := ShapingEntry(st.prev.value).value;
          var list :=
            if st.ppfwc == Some(tsyn.iForm) then st.list[j - 1 := tsyn.bForm]
            else if st.ppfwc == Some(tsyn.eForm) then st.list[j - 1 := tsyn.mForm]
            else st.list;
          ShapeState(list + [pfwc], syn.bType, Some(pfwc), Some(word))
      else
        ShapeState(st.list + [pfwc], syn.bType, Some(pfwc), Some(word))
    else
      ShapeState(st.list + [word], WdBeg, Some(word), Some(word))
  }

  /**
   * The state of convert after it has read the whole of s. The output never
   * has more slots than the input has code points, and a carried class
   * other than WdBeg always comes from the last code point read.
   */
  function Run(s: seq<nat>): (r: ShapeState)
    ensures Inv(r)
    ensures |r.list| <= |s|
    ensures r.bt != WdBeg ==> |s| > 0 && r.prev == Some(s[|s| - 1])
    decreases |s|
  {
    if s == [] then Start else Step(Run(s[..|s| - 1]), s[|s| - 1])
  }

  /** The code points that convert writes for s, before they are encoded. */
  function Shape(s: seq<nat>): (r: seq<nat>)
    ensures |r| <= |s|
    ensures s != [] ==> r != []
  {
    Run(s).list
  }

  /** The number of positions where ALEF directly follows LAM. */
  function LamAlefPairs(s: seq<nat>): nat
    decreases |s|
  {
    if |s| < 2 then 0
    else LamAlefPairs(s[..|s| - 1]) + (if s[|s| - 2] == LAM && s[|s| - 1] == ALEF then 1 else 0)
  }

  /** Run on s + [c] is one more Step. */
  lemma RunSnoc(s: seq<nat>, c: nat)
    ensures Run(s + [c]) == Step(Run(s), c)
  {
    assert (s + [c])[..|s|] == s;
  }

  /** Run on s + [x, y] is two more Steps. */
  lemma RunSnocTwo(s: seq<nat>, x: nat, y: nat)
    ensures Run(s + [x, y]) == Step(Step(Run(s), x), y)
  {
    assert s + [x, y] == (s + [x]) + [y];
    RunSnoc(s + [x], y);
    RunSnoc(s, x);
  }

  /** The beginning or medial form that replaces the form of the letter before, once a letter follows it. */
  function Joined(st: ShapeState): nat
    requires Inv(st) && st.bt != WdBeg
  {
    var t := ShapingEntry(st.prev.value).value;
    if st.list[|st.list| - 1] == t.iForm then t.bForm else t.mForm
  }

  /** Step on a code point without a record: written as it is, class reset. */
  lemma StepOnUnshaped(st: ShapeState, w: nat)
    requires Inv(st) && !Shaped(w)
    ensures Step(st, w) == ShapeState(st.list + [w], WdBeg, Some(w), Some(w))
  {
  }

  /** Step on a letter that is not merged: its tentative form is added and the slot before is joined. */
  lemma StepOnLetter(st: ShapeState, w: nat)
    requires Inv(st) && Shaped(w) && !Merges(st, w)
    ensures var e, r := ShapingEntry(w).value, Step(st, w);
      var pfwc := Tentative(st.bt, e);
      && r.bt == e.bType && r.ppfwc == Some(pfwc) && r.prev == Some(w)
      && r.list == (if st.bt == WdBeg then st.list else st.list[..|st.list| - 1] + [Joined(st)]) + [pfwc]
  {
  }

  /** Step on the ALEF of a LAM+ALEF pair: the LAM's slot becomes the ligature, class reset. */
  lemma StepOnMerge(st: ShapeState, w: nat)
    requires Inv(st) && Merges(st, w)
    ensures Step(st, w) ==
      st.(list := st.list[|st.list| - 1 := if st.ppfwc == Some(LamEntry.iForm) then LA else LA_FINAL], bt := WdBeg)
  {
  }

  /** Only LAM has a record whose isolated or end form is one of LAM's. */
  lemma LamFormsOnlyFromLam(b: int)
    requires ShapingEntry(b).Some?
    requires var e, l := ShapingEntry(b).value, LamEntry;
      e.iForm == l.iForm || e.iForm == l.eForm || e.eForm == l.iForm || e.eForm == l.eForm
    ensures b == LAM
  {
    var e, l := ShapingEntry(b).value, LamEntry;
    assert ShapingEntry(LAM) == Some(l);
    var p := if e.iForm == l.iForm || e.iForm == l.eForm then e.iForm else e.eForm;
    assert IsFormOf(p, e) && IsFormOf(p, l);
    FormsDisjoint(b, LAM, p);
  }

  /** Only LAM's isolated or end form followed by ALEF makes the ligature. */
  lemma MergesFromLam(st: ShapeState, c: nat)
    requires Inv(st) && Merges(st, c)
    ensures st.prev == Some(LAM) && c == ALEF
  {
    LamFormsOnlyFromLam(st.prev.value);
  }

  /** Reading LAM leaves NoBeg carried and LAM's isolated or end form as the last slot. */
  lemma StepOnLam(st: ShapeState)
    requires Inv(st)
    ensures Step(st, LAM).bt == NoBeg && Step(st, LAM).prev == Some(LAM)
    ensures Step(st, LAM).ppfwc == Some(LamEntry.iForm) || Step(st, LAM).ppfwc == Some(LamEntry.eForm)
  {
    assert KeyBasic('l' as int) == LAM && KeyBasic('a' as int) == ALEF;
    StepOnLetter(st, LAM);
  }

  /** After a LAM, convert carries NoBeg and LAM's isolated or end form. */
  lemma AfterLam(p: seq<nat>)
    requires |p| > 0 && p[|p| - 1] == LAM
    ensures Run(p).bt == NoBeg
    ensures Run(p).ppfwc == Some(LamEntry.iForm) || Run(p).ppfwc == Some(LamEntry.eForm)
  {
    var pp := p[..|p| - 1];
    assert p == pp + [LAM];
    assert Run(p) == Step(Run(pp), LAM) by { RunSnoc(pp, LAM); }
    StepOnLam(Run(pp));
  }

  /** The ligature is made exactly where the input has ALEF right after LAM. */
  lemma MergeIff(p: seq<nat>, c: nat)
    ensures Merges(Run(p), c) <==> |p| > 0 && p[|p| - 1] == LAM && c == ALEF
  {
    if |p| > 0 && p[|p| - 1] == LAM {
      AfterLam(p);
    } else if Merges(Run(p), c) {
      MergesFromLam(Run(p), c);
    }
  }

  /** Reading c adds one slot, unless c is the ALEF of a LAM+ALEF pair. */
  lemma ShapeLengthStep(p: seq<nat>, c: nat)
    ensures |Shape(p + [c])| == |Shape(p)| + (if |p| > 0 && p[|p| - 1] == LAM && c == ALEF then 0 else 1)
  {
    var st := Run(p);
    assert Run(p + [c]) == Step(st, c) by { RunSnoc(p, c); }
    assert Merges(st, c) <==> |p| > 0 && p[|p| - 1] == LAM && c == ALEF by { MergeIff(p, c); }
  }

  /** The output has one slot per input code point, less one per LAM+ALEF pair. */
  lemma {:induction false} ShapeLength(s: seq<nat>)
    ensures |Shape(s)| + LamAlefPairs(s) == |s|
    decreases |s|
  {
    if s != [] {
      var p, c := s[..|s| - 1], s[|s| - 1];
      assert s == p + [c];
      ShapeLengthStep(p, c);
      assert LamAlefPairs(s) == LamAlefPairs(p) + (if |p| > 0 && p[|p| - 1] == LAM && c == ALEF then 1 else 0) by {
        if |s| >= 2 {
          assert s[|s| - 2] == p[|p| - 1];
        }
      }
      ShapeLength(p);
    }
  }

  /** The class Step carries on: that of a letter it does not merge, WdBeg otherwise. */
  lemma StepClass(st: ShapeState, c: nat)
    requires Inv(st)
    ensures Step(st, c).bt == if Shaped(c) && !Merges(st, c) then ShapingEntry(c).value.bType else WdBeg
  {
    if !Shaped(c) {
      StepOnUnshaped(st, c);
    } else if Merges(st, c) {
      StepOnMerge(st, c);
    } else {
      StepOnLetter(st, c);
    }
  }

  /**
   * The carried class after p + [c]: that of c when it is a shaped letter
   * not merged into a ligature, WdBeg otherwise.
   */
  lemma CarriedClass(p: seq<nat>, c: nat)
    ensures Run(p + [c]).bt ==
      if Shaped(c) && !(|p| > 0 && p[|p| - 1] == LAM && c == ALEF)
      then ShapingEntry(c).value.bType
      else WdBeg
  {
    var st := Run(p);
    assert Run(p + [c]) == Step(st, c) by { RunSnoc(p, c); }
    assert Merges(st, c) <==> |p| > 0 && p[|p| - 1] == LAM && c == ALEF by { MergeIff(p, c); }
    StepClass(st, c);
  }

  /** A code point without a record is written unchanged and resets the carried class. */
  lemma ShapeAppendUnshaped(s: seq<nat>, c: nat)
    requires !Shaped(c)
    ensures Shape(s + [c]) == Shape(s) + [c]
    ensures Run(s + [c]).bt == WdBeg
  {
    assert Run(s + [c]) == Step(Run(s), c) by { RunSnoc(s, c); }
    StepOnUnshaped(Run(s), c);
  }

  /** So the first letter after such a code point starts again from its isolated form. */
  lemma ResetBeforeLetter(s: seq<nat>, c: nat, x: nat)
    requires !Shaped(c) && Shaped(x)
    ensures Shape(s + [c, x]) == Shape(s) + [c, ShapingEntry(x).value.iForm]
  {
    var st := Step(Run(s), c);
    assert st == ShapeState(Shape(s) + [c], WdBeg, Some(c), Some(c)) by { StepOnUnshaped(Run(s), c); }
    assert Run(s + [c, x]) == Step(st, x) by { RunSnocTwo(s, c, x); }
    StepOnLetter(st, x);
  }

  /**
   * A shaped letter that does not complete a LAM+ALEF pair gets a new slot
   * holding its end form when NoBeg is carried and its isolated form
   * otherwise. When a class other than WdBeg is carried, the slot before is
   * rewritten from isolated to beginning or from end to medial form of the
   * letter before; no other slot changes.
   */
  lemma ShapeAppendLetter(s: seq<nat>, c: nat)
    requires Shaped(c)
    requires !(|s| > 0 && s[|s| - 1] == LAM && c == ALEF)
    ensures var before, after, bt := Shape(s), Shape(s + [c]), Run(s).bt;
      var e := ShapingEntry(c).value;
      && |after| == |before| + 1
      && after[|before|] == (if bt == NoBeg then e.eForm else e.iForm)
      && Run(s + [c]).bt == e.bType
      && (bt == WdBeg ==> after[..|before|] == before)
      && (bt != WdBeg ==>
            && |s| > 0 && Shaped(s[|s| - 1])
            && after[..|before| - 1] == before[..|before| - 1]
            && var t := ShapingEntry(s[|s| - 1]).value;
               || (before[|before| - 1] == t.iForm && after[|before| - 1] == t.bForm)
               || (before[|before| - 1] == t.eForm && after[|before| - 1] == t.mForm))
  {
    var st := Run(s);
    assert Run(s + [c]) == Step(st, c) && !Merges(st, c) by {
      RunSnoc(s, c);
      MergeIff(s, c);
    }
    StepAppendLetter(st, c);
  }

  /** ShapeAppendLetter on states: Step on a letter it does not merge. */
  lemma StepAppendLetter(st: ShapeState, c: nat)
    requires Inv(st) && Shaped(c) && !Merges(st, c)
    ensures var r, e := Step(st, c), ShapingEntry(c).value;
      && |r.list| == |st.list| + 1
      && r.list[|st.list|] == (if st.bt == NoBeg then e.eForm else e.iForm)
      && r.bt == e.bType
      && (st.bt == WdBeg ==> r.list[..|st.list|] == st.list)
      && (st.bt != WdBeg ==>
            && |st.list| >= 1 && st.prev.Some? && Shaped(st.prev.value)
            && r.list[..|st.list| - 1] == st.list[..|st.list| - 1]
            && var t := ShapingEntry(st.prev.value).value;
               || (st.list[|st.list| - 1] == t.iForm && r.list[|st.list| - 1] == t.bForm)
               || (st.list[|st.list| - 1] == t.eForm && r.list[|st.list| - 1] == t.mForm))
  {
    StepOnLetter(st, c);
  }

  /** From any state, LAM then ALEF leave one ligature slot where the LAM's slot was. */
  lemma StepLamAlef(st: ShapeState)
    requires Inv(st)
    ensures var mid := Step(st, LAM);
      && |mid.list| >= 1
      && Step(mid, ALEF).list == mid.list[..|mid.list| - 1] + [if st.bt == NoBeg then LA_FINAL else LA]
      && Step(mid, ALEF).bt == WdBeg
  {
    var l := LamEntry;
    assert ShapingEntry(LAM) == Some(l) && KeyBasic('a' as int) == ALEF && l.iForm != l.eForm;
    assert !Merges(st, LAM);
    StepOnLetter(st, LAM);
    var mid := Step(st, LAM);
    assert mid.ppfwc == Some(Tentative(st.bt, l)) && |mid.list| >= 1;
    assert Merges(mid, ALEF);
    StepOnMerge(mid, ALEF);
  }

  /**
   * LAM followed by ALEF becomes one slot: LA when the LAM stood isolated,
   * the final form _LA when the LAM joined the letter before. The carried
   * class is reset.
   */
  lemma LamAlefLigature(s: seq<nat>)
    ensures var mid := Shape(s + [LAM]);
      && |mid| >= 1
      && Shape(s + [LAM, ALEF]) == mid[..|mid| - 1] + [if Run(s).bt == NoBeg then LA_FINAL else LA]
      && Run(s + [LAM, ALEF]).bt == WdBeg
  {
    var st := Run(s);
    assert Run(s + [LAM]) == Step(st, LAM) by { RunSnoc(s, LAM); }
    assert Run(s + [LAM, ALEF]) == Step(Step(st, LAM), ALEF) by { RunSnocTwo(s, LAM, ALEF); }
    StepLamAlef(st);
  }

  /** Once written, every slot but the last one never changes as more input is read. */
  lemma {:induction false} ShapePrefixStable(s: seq<nat>, t: seq<nat>)
    requires |Shape(s)| >= 1
    ensures |Shape(s + t)| >= |Shape(s)|
    ensures Shape(s + t)[..|Shape(s)| - 1] == Shape(s)[..|Shape(s)| - 1]
    decreases |t|
  {
    if t == [] {
      assert s + t == s;
    } else {
      var t', c := t[..|t| - 1], t[|t| - 1];
      assert s + t == (s + t') + [c];
      assert Run(s + t) == Step(Run(s + t'), c) by { RunSnoc(s + t', c); }
      ShapePrefixStable(s, t');
    }
  }

  /** No slot of the state holds a code point that convert would shape. */
  predicate AllUnshaped(list: seq<nat>)
  {
    forall k :: 0 <= k < |list| ==> !Shaped(list[k])
  }

  /** The four forms of a record lie in the presentation ranges, so convert never shapes them. */
  lemma FormsNotShaped(b: int)
    requires ShapingEntry(b).Some?
    ensures var e := ShapingEntry(b).value;
      !Shaped(e.iForm) && !Shaped(e.bForm) && !Shaped(e.mForm) && !Shaped(e.eForm)
  {
    var e := ShapingEntry(b).value;
    FormsInPresentationRange(b);
    assert IsFormOf(e.iForm, e) && IsFormOf(e.bForm, e) && IsFormOf(e.mForm, e) && IsFormOf(e.eForm, e);
  }

  /** A letter Step does not merge adds a form and may rewrite the slot before to another form. */
  lemma LetterStepKeepsUnshaped(st: ShapeState, c: nat)
    requires Inv(st) && AllUnshaped(st.list) && Shaped(c) && !Merges(st, c)
    ensures AllUnshaped(Step(st, c).list)
  {
    FormsNotShaped(c);
    if st.bt != WdBeg {
      FormsNotShaped(st.prev.value);
    }
    StepOnLetter(st, c);
  }

  /** Step writes only presentation forms and code points it does not shape. */
  lemma StepKeepsUnshaped(st: ShapeState, c: nat)
    requires Inv(st) && AllUnshaped(st.list)
    ensures AllUnshaped(Step(st, c).list)
  {
    if !Shaped(c) {
      StepOnUnshaped(st, c);
    } else if Merges(st, c) {
      StepOnMerge(st, c);
    } else {
      LetterStepKeepsUnshaped(st, c);
    }
  }

  /** Nothing convert writes is a code point that it would shape. */
  lemma {:induction false} ShapeOutputUnshaped(s: seq<nat>)
    ensures AllUnshaped(Shape(s))
    decreases |s|
  {
    if s != [] {
      var p, c := s[..|s| - 1], s[|s| - 1];
      assert s == p + [c];
      assert Run(s) == Step(Run(p), c) by { RunSnoc(p, c); }
      ShapeOutputUnshaped(p);
      StepKeepsUnshaped(Run(p), c);
    }
  }

  /** Text with no shaped letter passes through unchanged: Latin keys, digits, presentation forms. */
  lemma {:induction false} ShapePassThrough(s: seq<nat>)
    requires forall k :: 0 <= k < |s| ==> !Shaped(s[k])
    ensures Shape(s) == s
    decreases |s|
  {
    if s != [] {
      var p, c := s[..|s| - 1], s[|s| - 1];
      assert s == p + [c];
      assert Shape(s) == Shape(p) + [c] by { ShapeAppendUnshaped(p, c); }
      ShapePassThrough(p);
    }
  }

  /** Each slot Step writes is the code point read, a presentation form, or a slot that was there before. */
  lemma StepSlotsOrigin(st: ShapeState, c: nat)
    requires Inv(st)
    ensures var r := Step(st, c).list;
      forall k :: 0 <= k < |r| ==> r[k] in st.list || r[k] == c || EPAD <= r[k] < EMAX
  {
    if !Shaped(c) {
      StepOnUnshaped(st, c);
    } else if Merges(st, c) {
      StepOnMerge(st, c);
    } else {
      FormsInPresentationRange(c);
      var e := ShapingEntry(c).value;
      assert IsFormOf(e.iForm, e) && IsFormOf(e.eForm, e);
      if st.bt != WdBeg {
        FormsInPresentationRange(st.prev.value);
        var t := ShapingEntry(st.prev.value).value;
        assert IsFormOf(t.bForm, t) && IsFormOf(t.mForm, t);
      }
      StepOnLetter(st, c);
    }
  }

  /** Every slot of list is a code point of s or a presentation form. */
  predicate FromInputOrForms(list: seq<nat>, s: seq<nat>)
  {
    forall k :: 0 <= k < |list| ==> list[k] in s || EPAD <= list[k] < EMAX
  }

  /** Slots drawn from an older list, from c or from the forms are drawn from s + [c] or the forms. */
  lemma OriginExtend(before: seq<nat>, s: seq<nat>, c: nat, r: seq<nat>)
    requires FromInputOrForms(before, s)
    requires forall k :: 0 <= k < |r| ==> r[k] in before || r[k] == c || EPAD <= r[k] < EMAX
    ensures FromInputOrForms(r, s + [c])
  {
    forall k | 0 <= k < |r|
      ensures r[k] in s + [c] || EPAD <= r[k] < EMAX
    {
      var x := r[k];
      if x in before {
        var i :| 0 <= i < |before| && before[i] == x;
        if x in s {
          var m :| 0 <= m < |s| && s[m] == x;
          assert (s + [c])[m] == x;
        }
      } else if x == c {
        assert (s + [c])[|s|] == x;
      }
    }
  }

  /** Every slot convert writes is a code point of its input or a presentation form. */
  lemma {:induction false} ShapeSlotsOrigin(s: seq<nat>)
    ensures FromInputOrForms(Shape(s), s)
    decreases |s|
  {
    if s != [] {
      var p, c := s[..|s| - 1], s[|s| - 1];
      assert s == p + [c];
      var st := Run(p);
      assert Shape(s) == Step(st, c).list by { RunSnoc(p, c); }
      ShapeSlotsOrigin(p);
      StepSlotsOrigin(st, c);
      OriginExtend(st.list, p, c, Step(st, c).list);
    }
  }

  /** Shaping what convert wrote changes nothing. */
  lemma ShapeIdempotent(s: seq<nat>)
    ensures Shape(Shape(s)) == Shape(s)
  {
    ShapeOutputUnshaped(s);
    ShapePassThrough(Shape(s));
  }

  /** A shaped letter on its own gets its isolated form and carries its own class. */
  lemma SingleLetter(x: nat)
    requires Shaped(x)
    ensures var e := ShapingEntry(x).value;
      Run([x]) == ShapeState([e.iForm], e.bType, Some(e.iForm), Some(x))
  {
    assert [x] == [] + [x];
    assert Run([x]) == Step(Start, x) by { RunSnoc([], x); }
    StepOnLetter(Start, x);
  }

  /** Two letters after a word break, the first joining on both sides: beginning form, then end form. */
  lemma TwoJoinedLetters(x: nat, y: nat)
    requires Shaped(x) && Shaped(y) && ShapingEntry(x).value.bType == NoBeg
    requires !(x == LAM && y == ALEF)
    ensures Shape([x, y]) == [ShapingEntry(x).value.bForm, ShapingEntry(y).value.eForm]
  {
    var ex := ShapingEntry(x).value;
    var st := ShapeState([ex.iForm], ex.bType, Some(ex.iForm), Some(x));
    assert Run([x]) == st by { SingleLetter(x); }
    assert [x, y] == [x] + [y];
    assert Run([x, y]) == Step(st, y) by { RunSnoc([x], y); }
    assert !Merges(st, y) by { MergeIff([x], y); }
    StepOnLetter(st, y);
  }
}
