/**
 * The constants of ArabCoverHelper and the three tables that its init()
 * builds, written here as reference functions: the transliteration key
 * table (cmList), the shaping-form table (pFormList) and the presentation
 * form decomposition table (pfToBasic).
 */
module Tables {
  import opened Options

  const BASELEN: nat := 256
  /** Basic Arabic block; BMAX is an exclusive bound where convert uses it. */
  const BPAD: nat := 0x0600
  const BMAX: nat := 0x06FF
  /** Arabic presentation forms A and B. */
  const EPAD: nat := 0xFB00
  const EMAX: nat := 0xFEFF

  const CHEE: nat := 0x0686
  const GHEE: nat := 0x063A
  const NGEE: nat := 0x06AD
  const SHEE: nat := 0x0634
  const SZEE: nat := 0x0698
  /** LAM+ALEF ligature, isolated (LA) and final (_LA in the source). */
  const LA: nat := 0xFEFB
  const LA_FINAL: nat := 0xFEFC
  const HAMZA: nat := 0x0626

  /** Latin-1 keys of the diacritic letters: 'e, 'E, :o, :O, :u, :U. */
  const PRIMe: nat := 233
  const PRIME: nat := 201
  const COLo: nat := 246
  const COLO: nat := 214
  const COLu: nat := 252
  const COLU: nat := 220

  /** The basic letters that the keys 'l' and 'a' stand for. */
  const LAM: nat := 0x0644
  const ALEF: nat := 0x0627

  /**
   * Joining class of a letter. WdBeg: the next letter starts a word.
   * InBeg: the letter joins only to the letter before it. NoBeg: the letter
   * joins on both sides.
   */
  datatype BegType = WdBeg | InBeg | NoBeg

  /** A shaping record: isolated, beginning, medial and end forms and the joining class. */
  datatype UG = UG(iForm: nat, bForm: nat, mForm: nat, eForm: nat, bType: BegType)

  predicate IsFormOf(p: int, e: UG)
  {
    p == e.iForm || p == e.bForm || p == e.mForm || p == e.eForm
  }

  predicate IsLowerKey(k: int) { 'a' as int <= k <= 'z' as int }
  predicate IsUpperKey(k: int) { 'A' as int <= k <= 'Z' as int }
  predicate IsPunctuationKey(k: int) { k == ';' as int || k == '?' as int || k == ',' as int }

  /** The basic letter written by each lower-case Latin key; 0 for any other character. */
  function LetterBasic(c: char): nat
  {
    match c
    case 'a' => 0x0627  case 'b' => 0x0628  case 'c' => 0x0643  case 'd' => 0x062F
    case 'e' => 0x06D5  case 'f' => 0x0641  case 'g' => 0x06AF  case 'h' => 0x06BE
    case 'i' => 0x0649  case 'j' => 0x062C  case 'k' => 0x0643  case 'l' => 0x0644
    case 'm' => 0x0645  case 'n' => 0x0646  case 'o' => 0x0648  case 'p' => 0x067E
    case 'q' => 0x0642  case 'r' => 0x0631  case 's' => 0x0633  case 't' => 0x062A
    case 'u' => 0x06C7  case 'v' => 0x06CB  case 'w' => 0x06CB  case 'x' => 0x062E
    case 'y' => 0x064A  case 'z' => 0x0632
    case _ => 0
  }

  /**
   * cmList as init() leaves it: a lower-case key and its upper-case key
   * give the same letter, the Latin-1 diacritic keys give their letters,
   * three punctuation keys give Arabic punctuation, every other key 0.
   */
  function KeyBasic(k: int): (r: nat)
    ensures r != 0 ==> BPAD <= r < BMAX
  {
    if IsLowerKey(k) then LetterBasic(k as char)
    else if IsUpperKey(k) then LetterBasic((k + 32) as char)
    else if k == PRIMe || k == PRIME then 0x06D0
    else if k == COLo || k == COLO then 0x06C6
    else if k == COLu || k == COLU then 0x06C8
    else if k == ';' as int then 0x061B
    else if k == '?' as int then 0x061F
    else if k == ',' as int then 0x060C
    else 0
  }

  /** pFormList as init() leaves it, keyed by the basic code point (pFormList[b - BPAD]). */
  function ShapingEntry(b: int): Option<UG>
  {
    match b
    case 0x0627 => Some(UG(0xFE8D, 0xFE8D, 0xFE8D, 0xFE8E, WdBeg))  // a
    case 0x06D5 => Some(UG(0xFEE9, 0xFEE9, 0xFEE9, 0xFEEA, WdBeg))  // e
    case 0x0628 => Some(UG(0xFE8F, 0xFE91, 0xFE92, 0xFE90, NoBeg))  // b
    case 0x067E => Some(UG(0xFB56, 0xFB58, 0xFB59, 0xFB57, NoBeg))  // p
    case 0x062A => Some(UG(0xFE95, 0xFE97, 0xFE98, 0xFE96, NoBeg))  // t
    case 0x062C => Some(UG(0xFE9D, 0xFE9F, 0xFEA0, 0xFE9E, NoBeg))  // j
    case 0x0686 => Some(UG(0xFB7A, 0xFB7C, 0xFB7D, 0xFB7B, NoBeg))  // CHEE
    case 0x062E => Some(UG(0xFEA5, 0xFEA7, 0xFEA8, 0xFEA6, NoBeg))  // x
    case 0x062F => Some(UG(0xFEA9, 0xFEA9, 0xFEAA, 0xFEAA, InBeg))  // d
    case 0x0631 => Some(UG(0xFEAD, 0xFEAD, 0xFEAE, 0xFEAE, InBeg))  // r
    case 0x0632 => Some(UG(0xFEAF, 0xFEAF, 0xFEB0, 0xFEB0, InBeg))  // z
    case 0x0698 => Some(UG(0xFB8A, 0xFB8A, 0xFB8B, 0xFB8B, InBeg))  // SZEE
    case 0x0633 => Some(UG(0xFEB1, 0xFEB3, 0xFEB4, 0xFEB2, NoBeg))  // s
    case 0x0634 => Some(UG(0xFEB5, 0xFEB7, 0xFEB8, 0xFEB6, NoBeg))  // SHEE
    case 0x063A => Some(UG(0xFECD, 0xFECF, 0xFED0, 0xFECE, NoBeg))  // GHEE
    case 0x0641 => Some(UG(0xFED1, 0xFED3, 0xFED4, 0xFED2, NoBeg))  // f
    case 0x0642 => Some(UG(0xFED5, 0xFED7, 0xFED8, 0xFED6, NoBeg))  // q
    case 0x0643 => Some(UG(0xFED9, 0xFEDB, 0xFEDC, 0xFEDA, NoBeg))  // k
    case 0x06AF => Some(UG(0xFB92, 0xFB94, 0xFB95, 0xFB93, NoBeg))  // g
    case 0x06AD => Some(UG(0xFBD3, 0xFBD5, 0xFBD6, 0xFBD4, NoBeg))  // NGEE
    case 0x0644 => Some(UG(0xFEDD, 0xFEDF, 0xFEE0, 0xFEDE, NoBeg))  // l
    case 0x0645 => Some(UG(0xFEE1, 0xFEE3, 0xFEE4, 0xFEE2, NoBeg))  // m
    case 0x0646 => Some(UG(0xFEE5, 0xFEE7, 0xFEE8, 0xFEE6, NoBeg))  // n
    case 0x06BE => Some(UG(0xFBAA, 0xFBAA, 0xFBAD, 0xFBAD, NoBeg))  // h
    case 0x0648 => Some(UG(0xFEED, 0xFEED, 0xFEEE, 0xFEEE, InBeg))  // o
    case 0x06C7 => Some(UG(0xFBD7, 0xFBD7, 0xFBD8, 0xFBD8, InBeg))  // u
    case 0x06CB => Some(UG(0xFBDE, 0xFBDE, 0xFBDF, 0xFBDF, InBeg))  // w
    case 0x0649 => Some(UG(0xFEEF, 0xFBE8, 0xFBE9, 0xFEF0, NoBeg))  // i
    case 0x064A => Some(UG(0xFEF1, 0xFEF3, 0xFEF4, 0xFEF2, NoBeg))  // y
    case 0x0626 => Some(UG(0xFE8B, 0xFE8B, 0xFE8C, 0xFB8C, NoBeg))  // HAMZA; the end form is kept as init() writes it
    case 0x06C6 => Some(UG(0xFBD9, 0xFBD9, 0xFBDA, 0xFBDA, InBeg))  // keys COLo, COLO
    case 0x06C8 => Some(UG(0xFBDB, 0xFBDB, 0xFBDC, 0xFBDC, InBeg))  // keys COLu, COLU
    case 0x06D0 => Some(UG(0xFBE4, 0xFBE6, 0xFBE7, 0xFBE5, NoBeg))  // keys PRIMe, PRIME
    case _ => None
  }

  /**
   * The reverse of ShapingEntry, written per presentation form: the basic
   * letter whose record holds the form p, or None. The forms are searched
   * by range, split first at 0xFE00 and then once more in each half.
   */
  function FormBasic(p: int): Option<nat>
  {
    if p < 0xFE00 then
      if p < 0xFBD3 then
        if 0xFB56 <= p <= 0xFB59 then Some(0x067E)
        else if 0xFB7A <= p <= 0xFB7D then Some(0x0686)
        else if 0xFB8A <= p <= 0xFB8B then Some(0x0698)
        else if p == 0xFB8C then Some(0x0626)
        else if 0xFB92 <= p <= 0xFB95 then Some(0x06AF)
        else if p == 0xFBAA || p == 0xFBAD then Some(0x06BE)
        else None
      else
        if p <= 0xFBD6 then Some(0x06AD)
        else if p <= 0xFBD8 then Some(0x06C7)
        else if p <= 0xFBDA then Some(0x06C6)
        else if p <= 0xFBDC then Some(0x06C8)
        else if 0xFBDE <= p <= 0xFBDF then Some(0x06CB)
        else if 0xFBE4 <= p <= 0xFBE7 then Some(0x06D0)
        else if 0xFBE8 <= p <= 0xFBE9 then Some(0x0649)
        else None
    else
      if p < 0xFEB1 then
        if 0xFE8B <= p <= 0xFE8C then Some(0x0626)
        else if 0xFE8D <= p <= 0xFE8E then Some(0x0627)
        else if 0xFE8F <= p <= 0xFE92 then Some(0x0628)
        else if 0xFE95 <= p <= 0xFE98 then Some(0x062A)
        else if 0xFE9D <= p <= 0xFEA0 then Some(0x062C)
        else if 0xFEA5 <= p <= 0xFEA8 then Some(0x062E)
        else if 0xFEA9 <= p <= 0xFEAA then Some(0x062F)
        else if 0xFEAD <= p <= 0xFEAE then Some(0x0631)
        else if 0xFEAF <= p then Some(0x0632)
        else None
      else
        if p <= 0xFEB4 then Some(0x0633)
        else if p <= 0xFEB8 then Some(0x0634)
        else if 0xFECD <= p <= 0xFED0 then Some(0x063A)
        else if 0xFED1 <= p <= 0xFED4 then Some(0x0641)
        else if 0xFED5 <= p <= 0xFED8 then Some(0x0642)
        else if 0xFED9 <= p <= 0xFEDC then Some(0x0643)
        else if 0xFEDD <= p <= 0xFEE0 then Some(0x0644)
        else if 0xFEE1 <= p <= 0xFEE4 then Some(0x0645)
        else if 0xFEE5 <= p <= 0xFEE8 then Some(0x0646)
        else if 0xFEE9 <= p <= 0xFEEA then Some(0x06D5)
        else if 0xFEED <= p <= 0xFEEE then Some(0x0648)
        else if 0xFEEF <= p <= 0xFEF0 then Some(0x0649)
        else if 0xFEF1 <= p <= 0xFEF4 then Some(0x064A)
        else None
  }

  /** The vowel of each HAMZA+vowel ligature that init() records. */
  function HamzaLigatureVowel(p: int): Option<nat>
  {
    match p
    case 0xFBEA | 0xFBEB => Some(0x0627)
    case 0xFBEC | 0xFBED => Some(0x06D5)
    case 0xFBF6 | 0xFBF7 | 0xFBF8 | 0xFBD1 => Some(0x06D0)
    case 0xFBF9 | 0xFBFA | 0xFBFB => Some(0x0649)
    case 0xFBEE | 0xFBEF => Some(0x0648)
    case 0xFBF2 | 0xFBF3 => Some(0x06C6)
    case 0xFBF0 | 0xFBF1 => Some(0x06C7)
    case 0xFBF4 | 0xFBF5 => Some(0x06C8)
    case _ => None
  }

  /**
   * pfToBasic as init() leaves it, keyed by the presentation form
   * (pfToBasic[p - EPAD]): the ligatures decompose into two letters, the
   * two extra HEH forms into 0x06BE, every form of a shaping record into
   * its letter, and everything else into nothing.
   */
  function Decomposition(p: int): (r: seq<nat>)
    ensures |r| <= 2
    ensures forall k :: 0 <= k < |r| ==> BPAD <= r[k] < BMAX
  {
    if p == LA || p == LA_FINAL then [LAM, ALEF]
    else if HamzaLigatureVowel(p).Some? then [HAMZA, HamzaLigatureVowel(p).value]
    else if p == 0xFEEB || p == 0xFEEC then [0x06BE]
    else match FormBasic(p)
      case Some(b) => [b]
      case None => []
  }

  /** Every form of every record is a presentation form, in [EPAD, EMAX). */
  lemma FormsInPresentationRange(b: int)
    requires ShapingEntry(b).Some?
    ensures var e := ShapingEntry(b).value;
      forall p :: IsFormOf(p, e) ==> EPAD <= p < EMAX
  {
  }

  /** FormBasic undoes ShapingEntry: each of the four forms of the record of b leads back to b. */
  lemma FormBasicOfEntry(b: int)
    requires ShapingEntry(b).Some?
    ensures var e := ShapingEntry(b).value;
      && FormBasic(e.iForm) == Some(b as nat) && FormBasic(e.bForm) == Some(b as nat)
      && FormBasic(e.mForm) == Some(b as nat) && FormBasic(e.eForm) == Some(b as nat)
  {
    match b
    case 0x0627 => {}
    case 0x06D5 => {}
    case 0x0628 => {}
    case 0x067E => {}
    case 0x062A => {}
    case 0x062C => {}
    case 0x0686 => {}
    case 0x062E => {}
    case 0x062F => {}
    case 0x0631 => {}
    case 0x0632 => {}
    case 0x0698 => {}
    case 0x0633 => {}
    case 0x0634 => {}
    case 0x063A => {}
    case 0x0641 => {}
    case 0x0642 => {}
    case 0x0643 => {}
    case 0x06AF => {}
    case 0x06AD => {}
    case 0x0644 => {}
    case 0x0645 => {}
    case 0x0646 => {}
    case 0x06BE => {}
    case 0x0648 => {}
    case 0x06C7 => {}
    case 0x06CB => {}
    case 0x0649 => {}
    case 0x064A => {}
    case 0x0626 => {}
    case 0x06C6 => {}
    case 0x06C8 => {}
    case 0x06D0 => {}
    case _ => {}
  }

  /** FormBasic names only real forms: a form that it maps to b is one of the forms of b's record. */
  lemma FormBasicSound(p: int)
    requires FormBasic(p).Some?
    ensures var b := FormBasic(p).value;
      BPAD <= b < BMAX && ShapingEntry(b).Some? && IsFormOf(p, ShapingEntry(b).value)
  {
  }

  /** No presentation form belongs to two records. */
  lemma FormsDisjoint(b1: int, b2: int, p: int)
    requires ShapingEntry(b1).Some? && ShapingEntry(b2).Some?
    requires IsFormOf(p, ShapingEntry(b1).value) && IsFormOf(p, ShapingEntry(b2).value)
    ensures b1 == b2
  {
    FormBasicOfEntry(b1);
    FormBasicOfEntry(b2);
  }

  /** Every letter with a record lies in the basic range that convert shapes. */
  lemma EntriesInBasicRange(b: int)
    requires ShapingEntry(b).Some?
    ensures BPAD <= b < BMAX
  {
  }

  /**
   * For a letter that joins only backwards, the beginning form is the
   * isolated form and the medial form is the end form, so convert's
   * correction of such a letter rewrites its slot with the same value.
   */
  lemma InBegCorrectionIsNoop(b: int)
    requires ShapingEntry(b).Some? && ShapingEntry(b).value.bType == InBeg
    ensures var e := ShapingEntry(b).value; e.iForm == e.bForm && e.eForm == e.mForm
  {
  }

  /** Decomposition inverts shaping for every single letter: each of its forms decomposes to [b]. */
  lemma DecompositionOfForms(b: int)
    requires ShapingEntry(b).Some?
    ensures var e := ShapingEntry(b).value;
      && Decomposition(e.iForm) == [b as nat] && Decomposition(e.bForm) == [b as nat]
      && Decomposition(e.mForm) == [b as nat] && Decomposition(e.eForm) == [b as nat]
  {
    var e := ShapingEntry(b).value;
    FormBasicOfEntry(b);
    LigatureSlotsAreNotForms(e.iForm);
    LigatureSlotsAreNotForms(e.bForm);
    LigatureSlotsAreNotForms(e.mForm);
    LigatureSlotsAreNotForms(e.eForm);
  }

  /** The slots that init() fills with ligatures or HEH aliases hold no form of any record. */
  lemma LigatureSlotsAreNotForms(p: int)
    requires FormBasic(p).Some?
    ensures p != LA && p != LA_FINAL && p != 0xFEEB && p != 0xFEEC && HamzaLigatureVowel(p) == None
  {
  }

  /** Every Latin letter key, upper or lower case, names a letter that has a shaping record. */
  lemma LetterKeysAreShaped(k: int)
    requires IsLowerKey(k) || IsUpperKey(k)
    ensures ShapingEntry(KeyBasic(k)).Some?
  {
  }
}
