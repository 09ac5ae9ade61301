/**
 * The ArabCoverHelper object: the three tables that init() fills in place,
 * cmUG, and convert(), which shapes a sequence of code points through an
 * index-addressed buffer and encodes every slot with asciiToString.
 */
module ArabCover {
  import opened Options
  import opened Utf8
  import opened Tables
  import opened Shaping

  /**
   * PHP's $e[pos] = v on a list: the slot pos is overwritten, or the value
   * is appended when pos is the next free index.
   */
  function Put(e: seq<nat>, pos: nat, v: nat): (r: seq<nat>)
    requires pos <= |e|
    ensures |r| == (if pos < |e| then |e| else |e| + 1)
    ensures r[pos] == v
    ensures forall k :: 0 <= k < |e| && k != pos ==> r[k] == e[k]
  {
    if pos < |e| then e[pos := v] else e + [v]
  }

  /** PHP's $t[pos][slot] = v on a list of lists. */
  function SetSlot(t: seq<seq<nat>>, pos: nat, slot: nat, v: nat): (r: seq<seq<nat>>)
    requires pos < |t| && slot <= |t[pos]|
    ensures |r| == |t| && r[pos] == Put(t[pos], slot, v)
    ensures forall q :: 0 <= q < |t| && q != pos ==> r[q] == t[q]
  {
    t[pos := Put(t[pos], slot, v)]
  }

  /** Writing slot 0 of a list of at most one element leaves just the new value. */
  lemma SetSlotShort(t: seq<seq<nat>>, pos: nat, v: nat)
    requires pos < |t| && |t[pos]| <= 1
    ensures SetSlot(t, pos, 0, v) == t[pos := [v]]
  {
    assert Put(t[pos], 0, v) == [v];
  }

  /** The four slot-0 writes of one record, on lists that hold at most one value. */
  lemma SetFourSlots(t: seq<seq<nat>>, a: nat, b: nat, c: nat, d: nat, v: nat)
    requires a < |t| && b < |t| && c < |t| && d < |t|
    requires |t[a]| <= 1 && |t[b]| <= 1 && |t[c]| <= 1 && |t[d]| <= 1
    ensures SetSlot(SetSlot(SetSlot(SetSlot(t, a, 0, v), b, 0, v), c, 0, v), d, 0, v)
         == t[a := [v]][b := [v]][c := [v]][d := [v]]
  {
    SetSlotShort(t, a, v);
    var t1 := t[a := [v]];
    SetSlotShort(t1, b, v);
    var t2 := t1[b := [v]];
    SetSlotShort(t2, c, v);
    var t3 := t2[c := [v]];
    SetSlotShort(t3, d, v);
  }

  /** Writing slots 0 and 1 of an empty list leaves the pair. */
  lemma SetPairOnEmpty(t: seq<seq<nat>>, pos: nat, a: nat, b: nat)
    requires pos < |t| && t[pos] == []
    ensures SetSlot(SetSlot(t, pos, 0, a), pos, 1, b) == t[pos := [a, b]]
  {
    assert Put([], 0, a) == [a];
    assert Put([a], 1, b) == [a, b];
  }

  /**
   * The end of convert: asciiToString on each of the first j slots, then
   * implode() over the whole buffer, where a null slot adds nothing.
   */
  method EncodeSlots(list: array<Option<nat>>, j: nat, ghost codes: seq<nat>) returns (out: seq<byte>)
    requires j == |codes| <= list.Length
    requires forall k :: 0 <= k < j ==> list[k] == Some(codes[k])
    requires forall k :: j <= k < list.Length ==> list[k] == None
    ensures out == Encode(codes)
  {
    out := [];
    for i := 0 to list.Length
      invariant out == Encode(codes[..if i < j then i else j])
    {
      if i < j {
        assert codes[..i + 1] == codes[..i] + [codes[i]];
      }
      out := out + (match list[i] case Some(c) => AsciiToString(c) case None => []);
    }
    assert codes[..j] == codes;
  }

  /** The characters PHP's trim() strips: space, tab, line feed, carriage return, NUL and vertical tab. */
  predicate IsTrimmed(c: nat)
  {
    c == 32 || c == 9 || c == 10 || c == 13 || c == 0 || c == 11
  }

  /** trim() on the left: drops the longest prefix of stripped characters. */
  function TrimStart(s: seq<nat>): (r: seq<nat>)
    ensures |r| <= |s| && r == s[|s| - |r|..]
    ensures forall k :: 0 <= k < |s| - |r| ==> IsTrimmed(s[k])
    ensures r != [] ==> !IsTrimmed(r[0])
    decreases |s|
  {
    if s != [] && IsTrimmed(s[0]) then TrimStart(s[1..]) else s
  }

  /** trim() on the right: drops the longest suffix of stripped characters. */
  function TrimEnd(s: seq<nat>): (r: seq<nat>)
    ensures |r| <= |s| && r == s[..|r|]
    ensures forall k :: |r| <= k < |s| ==> IsTrimmed(s[k])
    ensures r != [] ==> !IsTrimmed(r[|r| - 1])
    decreases |s|
  {
    if s != [] && IsTrimmed(s[|s| - 1]) then TrimEnd(s[..|s| - 1]) else s
  }

  /**
   * trim(): the input without its leading and trailing stripped characters.
   * The stripped characters are ASCII, so trimming the UTF-8 bytes and
   * trimming the code points agree.
   */
  function Trim(s: seq<nat>): (r: seq<nat>)
    ensures r != [] ==> !IsTrimmed(r[0]) && !IsTrimmed(r[|r| - 1])
    // r is the slice s[a..a + |r|], and everything around it is stripped
    ensures var a := |s| - |TrimStart(s)|;
      && 0 <= a <= a + |r| <= |s| && r == s[a..a + |r|]
      && (forall k :: 0 <= k < a ==> IsTrimmed(s[k]))
      && (forall k :: a + |r| <= k < |s| ==> IsTrimmed(s[k]))
  {
    TrimEnd(TrimStart(s))
  }

  /** Trimming twice strips nothing more. */
  lemma TrimIdempotent(s: seq<nat>)
    ensures Trim(Trim(s)) == Trim(s)
  {
    var r := Trim(s);
    if r != [] {
      assert r[0] == TrimStart(s)[0];
      assert TrimStart(r) == r;
    }
  }

  /** Trimming keeps only code points of the input. */
  lemma TrimKeepsBmp(s: seq<nat>)
    requires BmpScalars(s)
    ensures BmpScalars(Trim(s))
  {
    var t := TrimStart(s);
    assert BmpScalars(t) by { SliceKeepsBmp(s, |s| - |t|, |s|); }
    SliceKeepsBmp(t, 0, |TrimEnd(t)|);
  }

  /** A slice of BMP scalar values holds only BMP scalar values. */
  lemma SliceKeepsBmp(s: seq<nat>, a: int, b: int)
    requires BmpScalars(s) && 0 <= a <= b <= |s|
    ensures BmpScalars(s[a..b])
  {
    assert forall k :: 0 <= k < b - a ==> s[a..b][k] == s[a + k];
  }

  /** Shaping an input of BMP scalar values writes only BMP scalar values. */
  lemma ShapeKeepsBmp(s: seq<nat>)
    requires BmpScalars(s)
    ensures BmpScalars(Shape(s))
  {
    ShapeSlotsOrigin(s);
  }

  /** strtoupper on one byte: only the ASCII letters a-z change. */
  function UpperByte(b: byte): (r: byte)
    ensures !('a' as int <= r as int <= 'z' as int)
    ensures r != b ==> 'a' as int <= b as int <= 'z' as int && r as int == b as int - 32
  {
    if 'a' as int <= b as int <= 'z' as int then b - 32 else b
  }

  /** strtoupper on a byte string. */
  function StrToUpper(s: seq<byte>): (r: seq<byte>)
    ensures |r| == |s|
    ensures forall k :: 0 <= k < |s| ==> r[k] == UpperByte(s[k])
  {
    if s == [] then [] else [UpperByte(s[0])] + StrToUpper(s[1..])
  }

  /**
   * The key init() reads back from strtoupper(asciiToString(i)) for a key
   * code i: the upper-case key for a lower-case ASCII letter, i itself for
   * every other key, the Latin-1 ones included.
   */
  lemma UpperKeyCode(i: nat)
    requires i < BASELEN
    ensures Decode(StrToUpper(AsciiToString(i))) == Some(if IsLowerKey(i) then i - 32 else i)
  {
    if i < 128 {
      assert AsciiToString(i) == [i as byte];
    } else {
      AsciiToStringLayout(i);
      AsciiToStringRoundTrip(i);
      var s := AsciiToString(i);
      assert StrToUpper(s) == s;
    }
  }

  /** The value of cmList[k] while init() copies lower-case keys up, before key i is visited. */
  ghost function KeyDuringCopy(k: int, i: int): nat
  {
    if IsUpperKey(k) then (if k + 32 < i then KeyBasic(k) else 0)
    else if IsPunctuationKey(k) then 0
    else KeyBasic(k)
  }

  /**
   * The run of init() that writes the record of basic letter b into
   * pFormList, counting runs of consecutive lines from 1; 0 for letters
   * without a record.
   */
  function RecordRun(b: int): nat
  {
    match b
    case 0x0627 | 0x06D5 | 0x0628 | 0x067E | 0x062A | 0x062C | 0x0686 | 0x062E => 1
    case 0x062F | 0x0631 | 0x0632 | 0x0698 | 0x0633 | 0x0634 | 0x063A => 2
    case 0x0641 | 0x0642 | 0x0643 | 0x06AF | 0x06AD | 0x0644 | 0x0645 | 0x0646 => 3
    case 0x06BE | 0x0648 | 0x06C7 | 0x06CB | 0x0649 | 0x064A => 4
    case 0x0626 | 0x06C6 | 0x06C8 | 0x06D0 => 5
    case _ => 0
  }

  /** pFormList once the first n runs are written. */
  ghost function RecordStage(b: int, n: nat): Option<UG>
  {
    if 0 < RecordRun(b) <= n then ShapingEntry(b) else None
  }

  /** Once all five runs are written, every record is in place. */
  lemma AllRecordsWritten(b: int)
    ensures RecordStage(b, 5) == ShapingEntry(b)
  {
  }

  /** pfToBasic while init() walks pFormList, before offset i: only the forms of records below it are filled. */
  ghost function BasicBefore(p: int, i: int): seq<nat>
  {
    match FormBasic(p)
    case Some(b) => if b < BPAD + i then [b] else []
    case None => []
  }

  /** pfToBasic holds at most one letter per form during the walk. */
  lemma BasicBeforeShort(p: int, i: int)
    ensures |BasicBefore(p, i)| <= 1
  {
  }

  /** Visiting the record at offset i fills exactly its own forms. */
  lemma BasicBeforeStep(p: int, i: int)
    ensures BasicBefore(p, i + 1) ==
      if ShapingEntry(BPAD + i).Some? && IsFormOf(p, ShapingEntry(BPAD + i).value) then [BPAD + i]
      else BasicBefore(p, i)
  {
    var e := ShapingEntry(BPAD + i);
    if e.Some? && IsFormOf(p, e.value) {
      FormBasicOfEntry(BPAD + i);
    } else if FormBasic(p).Some? {
      FormBasicSound(p);
    }
  }
  /** The four writes of one record in init()'s walk over pFormList. */
  method LinkForms(t0: seq<seq<nat>>, i: nat, e: UG) returns (t: seq<seq<nat>>)
    requires ShapingEntry(BPAD + i) == Some(e)
    requires t0 == Walked(i)
    ensures t == Walked(i + 1)
  {
    RecordFormsFree(i, e);
    t := t0;
    SetFourSlots(t, e.iForm - EPAD, e.bForm - EPAD, e.mForm - EPAD, e.eForm - EPAD, i + BPAD);
    t := SetSlot(t, e.iForm - EPAD, 0, i + BPAD);
    t := SetSlot(t, e.bForm - EPAD, 0, i + BPAD);
    t := SetSlot(t, e.mForm - EPAD, 0, i + BPAD);
    t := SetSlot(t, e.eForm - EPAD, 0, i + BPAD);
    WalkStep(i, e);
  }

  /** Before the walk reaches a record, its four slots lie in pfToBasic and hold at most one letter. */
  lemma RecordFormsFree(i: int, e: UG)
    requires ShapingEntry(BPAD + i) == Some(e)
    ensures EPAD <= e.iForm < EMAX && EPAD <= e.bForm < EMAX && EPAD <= e.mForm < EMAX && EPAD <= e.eForm < EMAX
    ensures |Walked(i)[e.iForm - EPAD]| <= 1 && |Walked(i)[e.bForm - EPAD]| <= 1
    ensures |Walked(i)[e.mForm - EPAD]| <= 1 && |Walked(i)[e.eForm - EPAD]| <= 1
  {
    FormsInPresentationRange(BPAD + i);
    assert IsFormOf(e.iForm, e) && IsFormOf(e.bForm, e) && IsFormOf(e.mForm, e) && IsFormOf(e.eForm, e);
    BasicBeforeShort(e.iForm, i);
    BasicBeforeShort(e.bForm, i);
    BasicBeforeShort(e.mForm, i);
    BasicBeforeShort(e.eForm, i);
  }

  /** The whole of pfToBasic while init() walks pFormList, before offset i. */
  ghost function Walked(i: int): seq<seq<nat>>
  {
    seq(EMAX - EPAD, q => BasicBefore(EPAD + q, i))
  }

  /** Visiting a record writes its four forms and nothing else. */
  lemma WalkStep(i: int, e: UG)
    requires ShapingEntry(BPAD + i) == Some(e)
    requires EPAD <= e.iForm < EMAX && EPAD <= e.bForm < EMAX && EPAD <= e.mForm < EMAX && EPAD <= e.eForm < EMAX
    ensures Walked(i + 1) == Walked(i)[e.iForm - EPAD := [BPAD + i]][e.bForm - EPAD := [BPAD + i]]
                                      [e.mForm - EPAD := [BPAD + i]][e.eForm - EPAD := [BPAD + i]]
  {
    var t := Walked(i)[e.iForm - EPAD := [BPAD + i]][e.bForm - EPAD := [BPAD + i]]
                      [e.mForm - EPAD := [BPAD + i]][e.eForm - EPAD := [BPAD + i]];
    forall q | 0 <= q < EMAX - EPAD
      ensures Walked(i + 1)[q] == t[q]
    {
      WalkSlot(i, e, q);
    }
  }

  /** One slot of WalkStep: a form of the record gets its letter, any other slot keeps its value. */
  lemma WalkSlot(i: int, e: UG, q: int)
    requires ShapingEntry(BPAD + i) == Some(e) && 0 <= q < EMAX - EPAD
    ensures Walked(i + 1)[q] == if IsFormOf(EPAD + q, e) then [BPAD + i] else Walked(i)[q]
  {
    BasicBeforeStep(EPAD + q, i);
  }

  /** An offset without a record changes nothing. */
  lemma WalkSkip(i: int)
    requires ShapingEntry(BPAD + i) == None
    ensures Walked(i + 1) == Walked(i)
  {
    forall q | 0 <= q < EMAX - EPAD
      ensures Walked(i + 1)[q] == Walked(i)[q]
    {
      BasicBeforeStep(EPAD + q, i);
    }
  }


  /**
   * The run of init() that writes each extra pfToBasic slot: 1 for the HEH
   * and LAM+ALEF slots, 2 to 6 for the HAMZA+vowel ligatures, 0 for the
   * slots that only the walk over pFormList fills.
   */
  function LigatureRun(p: int): nat
  {
    match p
    case 0xFEEB | 0xFEEC | 0xFEFB | 0xFEFC => 1
    case 0xFBEA | 0xFBEB | 0xFBEC | 0xFBED => 2
    case 0xFBF6 | 0xFBF7 | 0xFBF8 | 0xFBD1 => 3
    case 0xFBF9 | 0xFBFA | 0xFBFB => 4
    case 0xFBEE | 0xFBEF | 0xFBF2 | 0xFBF3 => 5
    case 0xFBF0 | 0xFBF1 | 0xFBF4 | 0xFBF5 => 6
    case _ => 0
  }

  /** pfToBasic once the first n runs of extra slots are written. */
  ghost function LigatureStage(p: int, n: nat): seq<nat>
  {
    if 0 < LigatureRun(p) <= n then Decomposition(p) else BasicBefore(p, BASELEN)
  }

  /** Once all six runs are written, every slot holds its decomposition. */
  lemma AllLigaturesWritten(p: int)
    ensures LigatureStage(p, 6) == Decomposition(p)
  {
    if FormBasic(p).Some? {
      FormBasicSound(p);
      EntriesInBasicRange(FormBasic(p).value);
      LigatureSlotsAreNotForms(p);
    }
  }

  class ArabCoverHelper {
    /** Key code (0..255) to basic letter, 0 where there is none. */
    var cmList: seq<nat>
    /** Offset from BPAD to the shaping record of that basic letter. */
    var pFormList: seq<Option<UG>>
    /** Offset from EPAD to the basic letters a presentation form stands for. */
    var pfToBasic: seq<seq<nat>>

    ghost predicate KeysValid()
      reads this
    {
      |cmList| == BASELEN && forall k :: 0 <= k < BASELEN ==> cmList[k] == KeyBasic(k)
    }

    ghost predicate FormsValid()
      reads this
    {
      |pFormList| == BASELEN && forall off :: 0 <= off < BASELEN ==> pFormList[off] == ShapingEntry(BPAD + off)
    }

    ghost predicate DecompositionsValid()
      reads this
    {
      |pfToBasic| == EMAX - EPAD && forall q :: 0 <= q < EMAX - EPAD ==> pfToBasic[q] == Decomposition(EPAD + q)
    }

    /** The three tables hold exactly what init() writes. */
    ghost predicate Valid()
      reads this
    {
      KeysValid() && FormsValid() && DecompositionsValid()
    }

    constructor()
      ensures Valid()
    {
      cmList := [];
      pFormList := [];
      pfToBasic := [];
      new;
      Init();
    }

    /** cmUG: the offset of the basic letter of key x in pFormList. */
    function CmUG(x: char): (r: int)
      requires x as int < |cmList|
      reads this
      ensures KeysValid() ==> r == KeyBasic(x as int) - BPAD
    {
      cmList[x as int] - BPAD
    }

    /**
     * convert(): trims the input, shapes it through the buffer $list one
     * code point at a time, and returns the UTF-8 bytes of the slots it
     * filled. The result is exactly the encoded Shape of the trimmed input.
     */
    method Convert(str: seq<nat>) returns (out: seq<byte>)
      requires Valid()
      ensures out == Encode(Shape(Trim(str)))
      ensures BmpScalars(str) ==> DecodeAll(out) == Some(Shape(Trim(str)))
    {
      var s := Trim(str);
      var list := new Option<nat>[|s|];
      for i := 0 to |s|
        invariant forall k :: 0 <= k < i ==> list[k] == None
      {
        list[i] := None;
      }
      var j := ShapeAll(list, s);
      out := EncodeSlots(list, j, Shape(s));
      if BmpScalars(str) {
        TrimKeepsBmp(str);
        ShapeKeepsBmp(s);
        EncodeRoundTrip(Shape(s));
      }
    }

    /** The shaping loop of convert: fills list[0 .. j-1] with the code points of Shape(s). */
    method ShapeAll(list: array<Option<nat>>, s: seq<nat>) returns (j: nat)
      requires KeysValid() && FormsValid()
      requires list.Length == |s|
      modifies list
      ensures j == |Shape(s)|
      ensures forall k :: 0 <= k < j ==> list[k] == Some(Shape(s)[k])
      ensures forall k :: j <= k < list.Length ==> list[k] == old(list[k])
    {
      var cm := pFormList[CmUG('l')].value;
      var bt := WdBeg;
      var prev: Option<nat> := None;
      var ppfwc: Option<nat> := None;
      j := 0;
      ghost var st := Start;
      for i := 0 to |s|
        invariant st == Run(s[..i])
        invariant j == |st.list| && bt == st.bt && prev == st.prev && ppfwc == st.ppfwc
        invariant j <= i
        invariant forall k :: 0 <= k < j ==> list[k] == Some(st.list[k])
        invariant forall k :: j <= k < list.Length ==> list[k] == old(list[k])
      {
        assert s[..i + 1] == s[..i] + [s[i]];
        RunSnoc(s[..i], s[i]);
        j, bt, prev, ppfwc := ShapeStep(list, s[i], cm, j, bt, prev, ppfwc, st);
        st := Step(st, s[i]);
      }
      assert s[..|s|] == s;
    }

    /**
     * One iteration of convert's shaping loop on the code point word, over
     * the buffer list and the loop variables ($j, $bt, $prev, $ppfwc): it
     * does to them what Step does to the state st they stand for.
     */
    method ShapeStep(list: array<Option<nat>>, word: nat, cm: UG, j: nat, bt: BegType, prev: Option<nat>, ppfwc: Option<nat>,
                     ghost st: ShapeState)
      returns (j': nat, bt': BegType, prev': Option<nat>, ppfwc': Option<nat>)
      requires KeysValid() && FormsValid() && cm == LamEntry
      requires Inv(st) && j == |st.list| && bt == st.bt && prev == st.prev && ppfwc == st.ppfwc
      requires j < list.Length
      requires forall k :: 0 <= k < j ==> list[k] == Some(st.list[k])
      modifies list
      ensures var r := Step(st, word);
        && j' == |r.list| && bt' == r.bt && prev' == r.prev && ppfwc' == r.ppfwc
        && forall k :: 0 <= k < j' ==> list[k] == Some(r.list[k])
      ensures forall k :: j' <= k < list.Length ==> list[k] == old(list[k])
    {
      if BPAD <= word < BMAX && pFormList[word - BPAD].Some? {
        j', bt', prev', ppfwc' := ShapeLetter(list, word, cm, j, bt, prev, ppfwc, st);
      } else {
        StepOnUnshaped(st, word);
        list[j] := Some(word);
        j', bt', prev', ppfwc' := j + 1, WdBeg, Some(word), Some(word);
      }
    }

    /** The branch of ShapeStep for a letter that has a record in pFormList. */
    method ShapeLetter(list: array<Option<nat>>, word: nat, cm: UG, j: nat, bt: BegType, prev: Option<nat>, ppfwc: Option<nat>,
                       ghost st: ShapeState)
      returns (j': nat, bt': BegType, prev': Option<nat>, ppfwc': Option<nat>)
      requires KeysValid() && FormsValid() && cm == LamEntry
      requires Inv(st) && j == |st.list| && bt == st.bt && prev == st.prev && ppfwc == st.ppfwc
      requires j < list.Length
      requires forall k :: 0 <= k < j ==> list[k] == Some(st.list[k])
      requires BPAD <= word < BMAX && pFormList[word - BPAD].Some?
      modifies list
      ensures var r := Step(st, word);
        && j' == |r.list| && bt' == r.bt && prev' == r.prev && ppfwc' == r.ppfwc
        && forall k :: 0 <= k < j' ==> list[k] == Some(r.list[k])
      ensures forall k :: j' <= k < list.Length ==> list[k] == old(list[k])
    {
      j', bt', prev', ppfwc' := j, bt, prev, ppfwc;
      var syn := pFormList[word - BPAD].value;
      var pfwc := Tentative(bt, syn);
      if bt != WdBeg {
        var tsyn := pFormList[prev.value - BPAD].value;
        // LAM followed by ALEF: the slot of LAM becomes the ligature
        if ppfwc == Some(cm.iForm) && word == cmList['a' as int] {
          StepOnMerge(st, word);
          list[j - 1] := Some(LA);
          bt' := WdBeg;
          return;
        } else if ppfwc == Some(cm.eForm) && word == cmList['a' as int] {
          StepOnMerge(st, word);
          list[j - 1] := Some(LA_FINAL);
          bt' := WdBeg;
          return;
        }
        // the letter before joins this one: beginning or medial form
        if ppfwc == Some(tsyn.iForm) {
          list[j - 1] := Some(tsyn.bForm);
        } else if ppfwc == Some(tsyn.eForm) {
          list[j - 1] := Some(tsyn.mForm);
        }
      }
      StepOnLetter(st, word);
      bt' := syn.bType;
      list[j] := Some(pfwc);
      ppfwc' := Some(pfwc);
      prev' := Some(word);
      j' := j + 1;
    }

    /** init(): fills the three tables, one after the other. */
    method Init()
      requires cmList == [] && pFormList == [] && pfToBasic == []
      modifies this
      ensures Valid()
    {
      InitKeys();
      InitForms();
      InitDecompositions();
    }

    /** The cmList part of init(). */
    method InitKeys()
      requires cmList == []
      modifies this
      ensures KeysValid()
      ensures pFormList == old(pFormList) && pfToBasic == old(pfToBasic)
    {
      // every key starts without a letter
      var i := 0;
      while i < BASELEN
        invariant 0 <= i <= BASELEN && |cmList| == i
        invariant forall k :: 0 <= k < i ==> cmList[k] == 0
        invariant pFormList == old(pFormList) && pfToBasic == old(pfToBasic)
      {
        cmList := cmList + [0];
        i := i + 1;
      }
      SetLetterKeys();

      i := 0;
      while i < |cmList|
        invariant 0 <= i <= BASELEN && |cmList| == BASELEN
        invariant forall k :: 0 <= k < BASELEN ==> cmList[k] == KeyDuringCopy(k, i)
        invariant pFormList == old(pFormList) && pfToBasic == old(pfToBasic)
      {
        if cmList[i] != 0 {
          UpperKeyCode(i);
          var u := Decode(StrToUpper(AsciiToString(i))).value;
          if cmList[u] == 0 {
            cmList := cmList[u := cmList[i]];
          }
        }
        i := i + 1;
      }

      // the three punctuation keys
      cmList := cmList[';' as int := 0x061B];
      cmList := cmList['?' as int := 0x061F];
      cmList := cmList[',' as int := 0x060C];
    }

    /** The 26 letter keys and the six Latin-1 diacritic keys, written over a zeroed cmList. */
    method SetLetterKeys()
      requires |cmList| == BASELEN && forall k :: 0 <= k < BASELEN ==> cmList[k] == 0
      modifies this
      ensures |cmList| == BASELEN && forall k :: 0 <= k < BASELEN ==> cmList[k] == KeyDuringCopy(k, 0)
      ensures pFormList == old(pFormList) && pfToBasic == old(pfToBasic)
    {
      var keys := cmList;
      keys := keys['a' as int := 0x0627];
      keys := keys['b' as int := 0x0628];
      keys := keys['c' as int := 0x0643];
      keys := keys['d' as int := 0x062F];
      keys := keys['e' as int := 0x06D5];
      keys := keys['f' as int := 0x0641];
      keys := keys['g' as int := 0x06AF];
      keys := keys['h' as int := 0x06BE];
      keys := keys['i' as int := 0x0649];
      keys := keys['j' as int := 0x062C];
      keys := keys['k' as int := 0x0643];
      keys := keys['l' as int := 0x0644];
      keys := keys['m' as int := 0x0645];
      keys := keys['n' as int := 0x0646];
      keys := keys['o' as int := 0x0648];
      keys := keys['p' as int := 0x067E];
      keys := keys['q' as int := 0x0642];
      keys := keys['r' as int := 0x0631];
      keys := keys['s' as int := 0x0633];
      keys := keys['t' as int := 0x062A];
      keys := keys['u' as int := 0x06C7];
      keys := keys['v' as int := 0x06CB];
      keys := keys['w' as int := 0x06CB];
      keys := keys['x' as int := 0x062E];
      keys := keys['y' as int := 0x064A];
      keys := keys['z' as int := 0x0632];

      keys := keys[PRIMe := 0x06D0];
      keys := keys[PRIME := 0x06D0];
      keys := keys[COLo := 0x06C6];
      keys := keys[COLO := 0x06C6];
      keys := keys[COLu := 0x06C8];
      keys := keys[COLU := 0x06C8];
      cmList := keys;
    }

    /** The pFormList part of init(). */
    method InitForms()
      requires KeysValid() && pFormList == []
      modifies this
      ensures FormsValid()
      ensures cmList == old(cmList) && pfToBasic == old(pfToBasic)
    {
      var i := 0;
      while i < BASELEN
        invariant 0 <= i <= BASELEN && |pFormList| == i
        invariant forall k :: 0 <= k < i ==> pFormList[k] == None
        invariant cmList == old(cmList) && pfToBasic == old(pfToBasic)
      {
        pFormList := pFormList + [None];
        i := i + 1;
      }

      var forms := pFormList;
      forms := PutRecordsA(forms);
      forms := PutRecordsB(forms);
      forms := PutRecordsC(forms);
      forms := PutRecordsD(forms);
      forms := PutRecordsE(forms);
      pFormList := forms;
      forall off | 0 <= off < BASELEN
        ensures pFormList[off] == ShapingEntry(BPAD + off)
      {
        AllRecordsWritten(BPAD + off);
      }
    }

    /** Run A of the pFormList writes of init(). */
    method PutRecordsA(forms: seq<Option<UG>>) returns (r: seq<Option<UG>>)
      requires KeysValid()
      requires |forms| == BASELEN
      requires forall off :: 0 <= off < BASELEN ==> forms[off] == RecordStage(BPAD + off, 0)
      ensures |r| == BASELEN
      ensures forall off :: 0 <= off < BASELEN ==> r[off] == RecordStage(BPAD + off, 1)
    {
      r := forms;
      r := r[CmUG('a') := Some(UG(0xFE8D, 0xFE8D, 0xFE8D, 0xFE8E, WdBeg))];
      r := r[CmUG('e') := Some(UG(0xFEE9, 0xFEE9, 0xFEE9, 0xFEEA, WdBeg))];
      r := r[CmUG('b') := Some(UG(0xFE8F, 0xFE91, 0xFE92, 0xFE90, NoBeg))];
      r := r[CmUG('p') := Some(UG(0xFB56, 0xFB58, 0xFB59, 0xFB57, NoBeg))];
      r := r[CmUG('t') := Some(UG(0xFE95, 0xFE97, 0xFE98, 0xFE96, NoBeg))];
      r := r[CmUG('j') := Some(UG(0xFE9D, 0xFE9F, 0xFEA0, 0xFE9E, NoBeg))];
      r := r[CHEE - BPAD := Some(UG(0xFB7A, 0xFB7C, 0xFB7D, 0xFB7B, NoBeg))];
      r := r[CmUG('x') := Some(UG(0xFEA5, 0xFEA7, 0xFEA8, 0xFEA6, NoBeg))];
    }

    /** Run B of the pFormList writes of init(). */
    method PutRecordsB(forms: seq<Option<UG>>) returns (r: seq<Option<UG>>)
      requires KeysValid()
      requires |forms| == BASELEN
      requires forall off :: 0 <= off < BASELEN ==> forms[off] == RecordStage(BPAD + off, 1)
      ensures |r| == BASELEN
      ensures forall off :: 0 <= off < BASELEN ==> r[off] == RecordStage(BPAD + off, 2)
    {
      r := forms;
      r := r[CmUG('d') := Some(UG(0xFEA9, 0xFEA9, 0xFEAA, 0xFEAA, InBeg))];
      r := r[CmUG('r') := Some(UG(0xFEAD, 0xFEAD, 0xFEAE, 0xFEAE, InBeg))];
      r := r[CmUG('z') := Some(UG(0xFEAF, 0xFEAF, 0xFEB0, 0xFEB0, InBeg))];
      r := r[SZEE - BPAD := Some(UG(0xFB8A, 0xFB8A, 0xFB8B, 0xFB8B, InBeg))];
      r := r[CmUG('s') := Some(UG(0xFEB1, 0xFEB3, 0xFEB4, 0xFEB2, NoBeg))];
      r := r[SHEE - BPAD := Some(UG(0xFEB5, 0xFEB7, 0xFEB8, 0xFEB6, NoBeg))];
      r := r[GHEE - BPAD := Some(UG(0xFECD, 0xFECF, 0xFED0, 0xFECE, NoBeg))];
    }

    /** Run C of the pFormList writes of init(). */
    method PutRecordsC(forms: seq<Option<UG>>) returns (r: seq<Option<UG>>)
      requires KeysValid()
      requires |forms| == BASELEN
      requires forall off :: 0 <= off < BASELEN ==> forms[off] == RecordStage(BPAD + off, 2)
      ensures |r| == BASELEN
      ensures forall off :: 0 <= off < BASELEN ==> r[off] == RecordStage(BPAD + off, 3)
    {
      r := forms;
      r := r[CmUG('f') := Some(UG(0xFED1, 0xFED3, 0xFED4, 0xFED2, NoBeg))];
      r := r[CmUG('q') := Some(UG(0xFED5, 0xFED7, 0xFED8, 0xFED6, NoBeg))];
      r := r[CmUG('k') := Some(UG(0xFED9, 0xFEDB, 0xFEDC, 0xFEDA, NoBeg))];
      r := r[CmUG('g') := Some(UG(0xFB92, 0xFB94, 0xFB95, 0xFB93, NoBeg))];
      r := r[NGEE - BPAD := Some(UG(0xFBD3, 0xFBD5, 0xFBD6, 0xFBD4, NoBeg))];
      r := r[CmUG('l') := Some(UG(0xFEDD, 0xFEDF, 0xFEE0, 0xFEDE, NoBeg))];
      r := r[CmUG('m') := Some(UG(0xFEE1, 0xFEE3, 0xFEE4, 0xFEE2, NoBeg))];
      r := r[CmUG('n') := Some(UG(0xFEE5, 0xFEE7, 0xFEE8, 0xFEE6, NoBeg))];
    }

    /** Run D of the pFormList writes of init(). */
    method PutRecordsD(forms: seq<Option<UG>>) returns (r: seq<Option<UG>>)
      requires KeysValid()
      requires |forms| == BASELEN
      requires forall off :: 0 <= off < BASELEN ==> forms[off] == RecordStage(BPAD + off, 3)
      ensures |r| == BASELEN
      ensures forall off :: 0 <= off < BASELEN ==> r[off] == RecordStage(BPAD + off, 4)
    {
      r := forms;
      r := r[CmUG('h') := Some(UG(0xFBAA, 0xFBAA, 0xFBAD, 0xFBAD, NoBeg))];
      r := r[CmUG('o') := Some(UG(0xFEED, 0xFEED, 0xFEEE, 0xFEEE, InBeg))];
      r := r[CmUG('u') := Some(UG(0xFBD7, 0xFBD7, 0xFBD8, 0xFBD8, InBeg))];
      r := r[CmUG('w') := Some(UG(0xFBDE, 0xFBDE, 0xFBDF, 0xFBDF, InBeg))];
      r := r[CmUG('i') := Some(UG(0xFEEF, 0xFBE8, 0xFBE9, 0xFEF0, NoBeg))];
      r := r[CmUG('y') := Some(UG(0xFEF1, 0xFEF3, 0xFEF4, 0xFEF2, NoBeg))];
    }

    /** Run E of the pFormList writes of init(): the letters addressed by code rather than by key. */
    method PutRecordsE(forms: seq<Option<UG>>) returns (r: seq<Option<UG>>)
      requires KeysValid()
      requires |forms| == BASELEN
      requires forall off :: 0 <= off < BASELEN ==> forms[off] == RecordStage(BPAD + off, 4)
      ensures |r| == BASELEN
      ensures forall off :: 0 <= off < BASELEN ==> r[off] == RecordStage(BPAD + off, 5)
    {
      r := forms;
      r := r[HAMZA - BPAD := Some(UG(0xFE8B, 0xFE8B, 0xFE8C, 0xFB8C, NoBeg))];
      r := r[cmList[COLo] - BPAD := Some(UG(0xFBD9, 0xFBD9, 0xFBDA, 0xFBDA, InBeg))];
      r := r[cmList[COLu] - BPAD := Some(UG(0xFBDB, 0xFBDB, 0xFBDC, 0xFBDC, InBeg))];
      r := r[cmList[PRIMe] - BPAD := Some(UG(0xFBE4, 0xFBE6, 0xFBE7, 0xFBE5, NoBeg))];
    }

    /** The pfToBasic part of init(). */
    method InitDecompositions()
      requires KeysValid() && FormsValid() && pfToBasic == []
      modifies this
      ensures DecompositionsValid()
      ensures cmList == old(cmList) && pFormList == old(pFormList)
    {
      var i := 0;
      while i < EMAX - EPAD
        invariant 0 <= i <= EMAX - EPAD && |pfToBasic| == i
        invariant forall q :: 0 <= q < i ==> pfToBasic[q] == []
        invariant cmList == old(cmList) && pFormList == old(pFormList)
      {
        pfToBasic := pfToBasic + [[]];
        i := i + 1;
      }

      assert pfToBasic == Walked(0) by {
        forall q | 0 <= q < EMAX - EPAD
          ensures pfToBasic[q] == Walked(0)[q]
        {
          assert Walked(0)[q] == BasicBefore(EPAD + q, 0);
          if FormBasic(EPAD + q).Some? {
            FormBasicSound(EPAD + q);
          }
        }
      }

      // every form of every record points back to its basic letter
      i := 0;
      while i < |pFormList|
        invariant 0 <= i <= BASELEN && pfToBasic == Walked(i)
        invariant cmList == old(cmList) && pFormList == old(pFormList)
      {
        pfToBasic := LinkRecordForms(pfToBasic, i);
        i := i + 1;
      }
      var t := pfToBasic;
      t := PutHehAndLamAlef(t);
      t := PutHamzaAlefAndAe(t);
      t := PutHamzaE(t);
      t := PutHamzaI(t);
      t := PutHamzaWawAndOe(t);
      t := PutHamzaUAndYu(t);
      pfToBasic := t;
      forall q | 0 <= q < EMAX - EPAD
        ensures pfToBasic[q] == Decomposition(EPAD + q)
      {
        AllLigaturesWritten(EPAD + q);
      }
    }


    /** One pass of init()'s walk over pFormList: each form of the record at offset i points back to its letter. */
    method LinkRecordForms(t0: seq<seq<nat>>, i: nat) returns (t: seq<seq<nat>>)
      requires FormsValid() && i < BASELEN
      requires t0 == Walked(i)
      ensures t == Walked(i + 1)
    {
      t := t0;
      var lig := pFormList[i];
      if lig.Some? {
        t := LinkForms(t, i, lig.value);
      } else {
        WalkSkip(i);
      }
    }

    /** Extra pfToBasic run 1 of init(): The two extra HEH forms and the isolated and final LAM+ALEF ligatures. */
    method PutHehAndLamAlef(t0: seq<seq<nat>>) returns (t: seq<seq<nat>>)
      requires KeysValid()
      requires |t0| == EMAX - EPAD
      requires forall q :: 0 <= q < EMAX - EPAD ==> t0[q] == LigatureStage(EPAD + q, 0)
      ensures |t| == EMAX - EPAD
      ensures forall q :: 0 <= q < EMAX - EPAD ==> t[q] == LigatureStage(EPAD + q, 1)
    {
      t := t0;
      SetSlotShort(t, 0xFEEB - EPAD, cmList['h' as int]);
      t := SetSlot(t, 0xFEEB - EPAD, 0, cmList['h' as int]);
      SetSlotShort(t, 0xFEEC - EPAD, cmList['h' as int]);
      t := SetSlot(t, 0xFEEC - EPAD, 0, cmList['h' as int]);
      SetPairOnEmpty(t, 0xFEFB - EPAD, cmList['l' as int], cmList['a' as int]);
      t := SetSlot(t, 0xFEFB - EPAD, 0, cmList['l' as int]);
      t := SetSlot(t, 0xFEFB - EPAD, 1, cmList['a' as int]);
      SetPairOnEmpty(t, 0xFEFC - EPAD, cmList['l' as int], cmList['a' as int]);
      t := SetSlot(t, 0xFEFC - EPAD, 0, cmList['l' as int]);
      t := SetSlot(t, 0xFEFC - EPAD, 1, cmList['a' as int]);
    }

    /** Extra pfToBasic run 2 of init(): HAMZA with ALEF and with AE. */
    method PutHamzaAlefAndAe(t0: seq<seq<nat>>) returns (t: seq<seq<nat>>)
      requires KeysValid()
      requires |t0| == EMAX - EPAD
      requires forall q :: 0 <= q < EMAX - EPAD ==> t0[q] == LigatureStage(EPAD + q, 1)
      ensures |t| == EMAX - EPAD
      ensures forall q :: 0 <= q < EMAX - EPAD ==> t[q] == LigatureStage(EPAD + q, 2)
    {
      t := t0;
      SetPairOnEmpty(t, 0xFBEA - EPAD, HAMZA, cmList['a' as int]);
      t := SetSlot(t, 0xFBEA - EPAD, 0, HAMZA);
      t := SetSlot(t, 0xFBEA - EPAD, 1, cmList['a' as int]);
      SetPairOnEmpty(t, 0xFBEB - EPAD, HAMZA, cmList['a' as int]);
      t := SetSlot(t, 0xFBEB - EPAD, 0, HAMZA);
      t := SetSlot(t, 0xFBEB - EPAD, 1, cmList['a' as int]);
      SetPairOnEmpty(t, 0xFBEC - EPAD, HAMZA, cmList['e' as int]);
      t := SetSlot(t, 0xFBEC - EPAD, 0, HAMZA);
      t := SetSlot(t, 0xFBEC - EPAD, 1, cmList['e' as int]);
      SetPairOnEmpty(t, 0xFBED - EPAD, HAMZA, cmList['e' as int]);
      t := SetSlot(t, 0xFBED - EPAD, 0, HAMZA);
      t := SetSlot(t, 0xFBED - EPAD, 1, cmList['e' as int]);
    }

    /** Extra pfToBasic run 3 of init(): HAMZA with E, four forms. */
    method PutHamzaE(t0: seq<seq<nat>>) returns (t: seq<seq<nat>>)
      requires KeysValid()
      requires |t0| == EMAX - EPAD
      requires forall q :: 0 <= q < EMAX - EPAD ==> t0[q] == LigatureStage(EPAD + q, 2)
      ensures |t| == EMAX - EPAD
      ensures forall q :: 0 <= q < EMAX - EPAD ==> t[q] == LigatureStage(EPAD + q, 3)
    {
      t := t0;
      SetPairOnEmpty(t, 0xFBF6 - EPAD, HAMZA, cmList[PRIMe]);
      t := SetSlot(t, 0xFBF6 - EPAD, 0, HAMZA);
      t := SetSlot(t, 0xFBF6 - EPAD, 1, cmList[PRIMe]);
      SetPairOnEmpty(t, 0xFBF7 - EPAD, HAMZA, cmList[PRIMe]);
      t := SetSlot(t, 0xFBF7 - EPAD, 0, HAMZA);
      t := SetSlot(t, 0xFBF7 - EPAD, 1, cmList[PRIMe]);
      SetPairOnEmpty(t, 0xFBF8 - EPAD, HAMZA, cmList[PRIMe]);
      t := SetSlot(t, 0xFBF8 - EPAD, 0, HAMZA);
      t := SetSlot(t, 0xFBF8 - EPAD, 1, cmList[PRIMe]);
      SetPairOnEmpty(t, 0xFBD1 - EPAD, HAMZA, cmList[PRIMe]);
      t := SetSlot(t, 0xFBD1 - EPAD, 0, HAMZA);
      t := SetSlot(t, 0xFBD1 - EPAD, 1, cmList[PRIMe]);
    }

    /** Extra pfToBasic run 4 of init(): HAMZA with ALEF MAKSURA. */
    method PutHamzaI(t0: seq<seq<nat>>) returns (t: seq<seq<nat>>)
      requires KeysValid()
      requires |t0| == EMAX - EPAD
      requires forall q :: 0 <= q < EMAX - EPAD ==> t0[q] == LigatureStage(EPAD + q, 3)
      ensures |t| == EMAX - EPAD
      ensures forall q :: 0 <= q < EMAX - EPAD ==> t[q] == LigatureStage(EPAD + q, 4)
    {
      t := t0;
      SetPairOnEmpty(t, 0xFBF9 - EPAD, HAMZA, cmList['i' as int]);
      t := SetSlot(t, 0xFBF9 - EPAD, 0, HAMZA);
      t := SetSlot(t, 0xFBF9 - EPAD, 1, cmList['i' as int]);
      SetPairOnEmpty(t, 0xFBFA - EPAD, HAMZA, cmList['i' as int]);
      t := SetSlot(t, 0xFBFA - EPAD, 0, HAMZA);
      t := SetSlot(t, 0xFBFA - EPAD, 1, cmList['i' as int]);
      SetPairOnEmpty(t, 0xFBFB - EPAD, HAMZA, cmList['i' as int]);
      t := SetSlot(t, 0xFBFB - EPAD, 0, HAMZA);
      t := SetSlot(t, 0xFBFB - EPAD, 1, cmList['i' as int]);
    }

    /** Extra pfToBasic run 5 of init(): HAMZA with WAW and with OE. */
    method PutHamzaWawAndOe(t0: seq<seq<nat>>) returns (t: seq<seq<nat>>)
      requires KeysValid()
      requires |t0| == EMAX - EPAD
      requires forall q :: 0 <= q < EMAX - EPAD ==> t0[q] == LigatureStage(EPAD + q, 4)
      ensures |t| == EMAX - EPAD
      ensures forall q :: 0 <= q < EMAX - EPAD ==> t[q] == LigatureStage(EPAD + q, 5)
    {
      t := t0;
      SetPairOnEmpty(t, 0xFBEE - EPAD, HAMZA, cmList['o' as int]);
      t := SetSlot(t, 0xFBEE - EPAD, 0, HAMZA);
      t := SetSlot(t, 0xFBEE - EPAD, 1, cmList['o' as int]);
      SetPairOnEmpty(t, 0xFBEF - EPAD, HAMZA, cmList['o' as int]);
      t := SetSlot(t, 0xFBEF - EPAD, 0, HAMZA);
      t := SetSlot(t, 0xFBEF - EPAD, 1, cmList['o' as int]);
      SetPairOnEmpty(t, 0xFBF2 - EPAD, HAMZA, cmList[COLo]);
      t := SetSlot(t, 0xFBF2 - EPAD, 0, HAMZA);
      t := SetSlot(t, 0xFBF2 - EPAD, 1, cmList[COLo]);
      SetPairOnEmpty(t, 0xFBF3 - EPAD, HAMZA, cmList[COLo]);
      t := SetSlot(t, 0xFBF3 - EPAD, 0, HAMZA);
      t := SetSlot(t, 0xFBF3 - EPAD, 1, cmList[COLo]);
    }

    /** Extra pfToBasic run 6 of init(): HAMZA with U and with YU. */
    method PutHamzaUAndYu(t0: seq<seq<nat>>) returns (t: seq<seq<nat>>)
      requires KeysValid()
      requires |t0| == EMAX - EPAD
      requires forall q :: 0 <= q < EMAX - EPAD ==> t0[q] == LigatureStage(EPAD + q, 5)
      ensures |t| == EMAX - EPAD
      ensures forall q :: 0 <= q < EMAX - EPAD ==> t[q] == LigatureStage(EPAD + q, 6)
    {
      t := t0;
      SetPairOnEmpty(t, 0xFBF0 - EPAD, HAMZA, cmList['u' as int]);
      t := SetSlot(t, 0xFBF0 - EPAD, 0, HAMZA);
      t := SetSlot(t, 0xFBF0 - EPAD, 1, cmList['u' as int]);
      SetPairOnEmpty(t, 0xFBF1 - EPAD, HAMZA, cmList['u' as int]);
      t := SetSlot(t, 0xFBF1 - EPAD, 0, HAMZA);
      t := SetSlot(t, 0xFBF1 - EPAD, 1, cmList['u' as int]);
      SetPairOnEmpty(t, 0xFBF4 - EPAD, HAMZA, cmList[COLu]);
      t := SetSlot(t, 0xFBF4 - EPAD, 0, HAMZA);
      t := SetSlot(t, 0xFBF4 - EPAD, 1, cmList[COLu]);
      SetPairOnEmpty(t, 0xFBF5 - EPAD, HAMZA, cmList[COLu]);
      t := SetSlot(t, 0xFBF5 - EPAD, 0, HAMZA);
      t := SetSlot(t, 0xFBF5 - EPAD, 1, cmList[COLu]);
    }
  }
}
