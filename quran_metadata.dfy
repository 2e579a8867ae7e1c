/** quran_metadata.py: the table of Para (Juz) start positions, the lookup of the Para a verse
    belongs to, and the Para information record built from it. */
module QuranMetadata {
  import opened Text

  /** PARA_BOUNDARIES: entry p - 1 is the (surah, verse) where Para p starts. */
  const ParaBoundaries: seq<(int, int)> := [
    (1, 1), (2, 142), (2, 253), (3, 93), (4, 24), (4, 148), (5, 82), (6, 111), (7, 88), (8, 41),
    (9, 93), (11, 6), (12, 53), (15, 1), (17, 1), (18, 75), (21, 1), (23, 1), (25, 21), (27, 56),
    (29, 46), (33, 31), (36, 28), (39, 32), (41, 47), (46, 1), (51, 31), (58, 1), (67, 1), (78, 1)
  ]

  /** PARA_NAMES: entry p - 1 is the Arabic name of Para p. */
  const ParaNames: seq<string> := [
    "آلَیْت",  // 1
    "سَيَقُولُ",  // 2
    "تِلْكَ الرُّسُلُ",  // 3
    "لَنْ تَنَالُوا",  // 4
    "وَالْمُحْصَنَاتُ",  // 5
    "لَا يُحِبُّ اللَّهُ",  // 6
    "وَإِذَا سَمِعُوا",  // 7
    "وَلَوْ أَنَّنَا",  // 8
    "قَالَ الْمَلَأُ",  // 9
    "وَاعْلَمُوا",  // 10
    "يَعْتَذِرُونَ",  // 11
    "وَمَا مِنْ دَابَّةٍ",  // 12
    "وَمَا أُبَرِّئُ",  // 13
    "رُبَمَا",  // 14
    "سُبْحَانَ الَّذِي",  // 15
    "قَالَ أَلَمْ",  // 16
    "اقْتَرَبَ",  // 17
    "قَدْ أَفْلَحَ",  // 18
    "وَقَالَ الَّذِينَ",  // 19
    "أَمَّنْ خَلَقَ",  // 20
    "اتْلُ مَا أُوحِيَ",  // 21
    "وَمَنْ يَقْنُتْ",  // 22
    "وَمَا لِيَ",  // 23
    "فَمَنْ أَظْلَمُ",  // 24
    "إِلَيْهِ يُرَدُّ",  // 25
    "حم",  // 26
    "قَالَ فَمَا خَطْبُكُمْ",  // 27
    "قَدْ سَمِعَ اللَّهُ",  // 28
    "تَبَارَكَ",  // 29
    "عَمَّ"   // 30
  ]

  /** `PARA_BOUNDARIES[p]`. */
  function Boundary(p: nat): (int, int)
    requires 1 <= p <= 30
  {
    ParaBoundaries[p - 1]
  }

  /** (s1, v1) comes strictly before (s2, v2) in reading order. */
  predicate LexLt(a: (int, int), b: (int, int)) {
    a.0 < b.0 || (a.0 == b.0 && a.1 < b.1)
  }

  /** (s1, v1) comes at or before (s2, v2) in reading order. */
  predicate LexLe(a: (int, int), b: (int, int)) {
    a.0 < b.0 || (a.0 == b.0 && a.1 <= b.1)
  }

  /** The test of the loop body: the verse is past the boundary's surah, or in it at or after
      the boundary's verse. */
  predicate Reached(boundary: (int, int), surah: int, verse: int) {
    surah > boundary.0 || (surah == boundary.0 && verse >= boundary.1)
  }

  /** The loop over `range(30, 0, -1)`, from `para` down: the first Para whose start the verse
      has reached, or the default 1 when there is none. */
  function ScanDown(para: nat, surah: int, verse: int): (r: nat)
    requires para <= 30
    ensures 1 <= r && (para > 0 ==> r <= para)
    ensures forall q :: r < q <= para ==> !Reached(Boundary(q), surah, verse)
    ensures (para > 0 && Reached(Boundary(r), surah, verse))
         || (r == 1 && forall q :: 1 <= q <= para ==> !Reached(Boundary(q), surah, verse))
    decreases para
  {
    if para == 0 then 1
    else if Reached(Boundary(para), surah, verse) then para
    else ScanDown(para - 1, surah, verse)
  }

  /** find_para_for_verse. */
  function FindParaForVerse(surah: int, verse: int): nat {
    ScanDown(30, surah, verse)
  }

  /** The lookup always names one of the 30 Paras. */
  lemma FindParaRange(surah: int, verse: int)
    ensures 1 <= FindParaForVerse(surah, verse) <= 30
  {
  }

  /** Consecutive start positions strictly increase in reading order. */
  lemma BoundariesIncreaseStep(k: nat)
    requires 1 <= k < 30
    ensures LexLt(Boundary(k), Boundary(k + 1))
  {
    var b := ParaBoundaries;
    assert forall i :: 0 <= i < 29 ==> LexLt(b[i], b[i + 1]);
  }

  /** All start positions strictly increase in reading order. */
  lemma {:induction false} BoundariesIncrease(p: nat, q: nat)
    requires 1 <= p < q <= 30
    ensures LexLt(Boundary(p), Boundary(q))
    decreases q - p
  {
    BoundariesIncreaseStep(q - 1);
    if q > p + 1 {
      BoundariesIncrease(p, q - 1);
    }
  }

  /** The Para of a verse is p exactly when the verse has reached Para p's start (or p is 1)
      and has not reached Para p + 1's start (or p is 30). */
  lemma FindParaCharacterisation(surah: int, verse: int, p: nat)
    requires 1 <= p <= 30
    ensures FindParaForVerse(surah, verse) == p
        <==> ((p == 1 || Reached(Boundary(p), surah, verse))
              && (p == 30 || !Reached(Boundary(p + 1), surah, verse)))
  {
    var r := FindParaForVerse(surah, verse);
    if r != p && (p == 1 || Reached(Boundary(p), surah, verse))
              && (p == 30 || !Reached(Boundary(p + 1), surah, verse)) {
      if r > p {
        assert Reached(Boundary(r), surah, verse);
        if r > p + 1 {
          BoundariesIncrease(p + 1, r);
        }
        assert false;
      }
    }
  }

  /** Bracketing: from (1, 1) on, a verse lies at or after its Para's start and, below Para
      30, strictly before the next Para's start. */
  lemma FindParaBrackets(surah: int, verse: int)
    requires LexLe((1, 1), (surah, verse))
    ensures 1 <= FindParaForVerse(surah, verse) <= 30
    ensures LexLe(Boundary(FindParaForVerse(surah, verse)), (surah, verse))
    ensures FindParaForVerse(surah, verse) < 30
        ==> LexLt((surah, verse), Boundary(FindParaForVerse(surah, verse) + 1))
  {
    var p := FindParaForVerse(surah, verse);
    FindParaCharacterisation(surah, verse, p);
  }

  /** Each table entry's own start position maps to that entry's Para. */
  lemma FindParaAtBoundary(p: nat)
    requires 1 <= p <= 30
    ensures FindParaForVerse(Boundary(p).0, Boundary(p).1) == p
  {
    if p < 30 {
      BoundariesIncrease(p, p + 1);
    }
    FindParaCharacterisation(Boundary(p).0, Boundary(p).1, p);
  }

  /** A later verse never lies in an earlier Para. */
  lemma FindParaMonotone(s1: int, v1: int, s2: int, v2: int)
    requires LexLe((s1, v1), (s2, v2))
    ensures FindParaForVerse(s1, v1) <= FindParaForVerse(s2, v2)
  {
    var p1 := FindParaForVerse(s1, v1);
    if p1 > 1 {
      assert Reached(Boundary(p1), s1, v1);
      assert Reached(Boundary(p1), s2, v2);
    }
  }

  /** Positions before (1, 1) fall through the loop to the default Para 1. */
  lemma FindParaBeforeStart(surah: int, verse: int)
    requires surah < 1 || (surah == 1 && verse < 1)
    ensures FindParaForVerse(surah, verse) == 1
  {
    assert !Reached(Boundary(2), surah, verse);
    FindParaCharacterisation(surah, verse, 1);
  }

  /** One concrete case, settled by the two start positions around it; `next` is the start of
      the following Para. */
  lemma FindParaCase(surah: int, verse: int, p: nat, next: (int, int))
    requires 1 <= p <= 30
    requires p == 1 || Reached(Boundary(p), surah, verse)
    requires p < 30 ==> Boundary(p + 1) == next && !Reached(next, surah, verse)
    ensures FindParaForVerse(surah, verse) == p
  {
    FindParaCharacterisation(surah, verse, p);
  }

  // The cases of the file's own test block. Ya-Sin 36:1 lies in Para 22, since Para 23 starts at 36:28; the comment
  // beside that case says 23.

  lemma FindParaExampleFatiha()
    ensures FindParaForVerse(1, 1) == 1
  {
    FindParaCase(1, 1, 1, (2, 142));
  }

  lemma FindParaExampleBaqarah()
    ensures FindParaForVerse(2, 142) == 2
  {
    FindParaCase(2, 142, 2, (2, 253));
  }

  lemma FindParaExampleAyatulKursi()
    ensures FindParaForVerse(2, 255) == 3
  {
    FindParaCase(2, 255, 3, (3, 93));
  }

  lemma FindParaExampleYaSin()
    ensures FindParaForVerse(36, 1) == 22
  {
    FindParaCase(36, 1, 22, (36, 28));
  }

  lemma FindParaExampleNaba()
    ensures FindParaForVerse(78, 1) == 30
  {
    FindParaCase(78, 1, 30, (0, 0));
  }

  /** The record returned by get_para_info. */
  datatype ParaInfo = ParaInfo(paraNumber: nat, paraNameArabic: string, juzNumber: nat, display: string)

  /** `PARA_NAMES.get(p, "")`. */
  function ParaName(p: int): string {
    if 1 <= p <= 30 then ParaNames[p - 1] else ""
  }

  /** The display line `Para {p} ({name}) • Juz {p}` for a number text `n`. */
  function DisplayLine(n: string, name: string): string {
    "Para " + n + " (" + name + ") • Juz " + n
  }

  function ParaDisplay(p: nat): string {
    DisplayLine(NatToString(p), ParaName(p))
  }

  /** A display line holds the name and the number it was built from. */
  lemma DisplayLineHolds(n: string, name: string)
    ensures Contains(DisplayLine(n, name), name)
    ensures Contains(DisplayLine(n, name), n)
  {
    var tail := ") • Juz " + n;
    assert DisplayLine(n, name) == ("Para " + n + " (") + name + tail;
    ContainsMiddle("Para " + n + " (", name, tail);
    assert DisplayLine(n, name) == "Para " + n + (" (" + name + tail);
    ContainsMiddle("Para ", n, " (" + name + tail);
  }

  /** A display line names the Para's number and its name. */
  lemma ParaDisplayNames(p: nat)
    ensures Contains(ParaDisplay(p), ParaName(p))
    ensures Contains(ParaDisplay(p), NatToString(p))
  {
    DisplayLineHolds(NatToString(p), ParaName(p));
  }

  /** get_para_info: the Para of the verse, its name, the same number as Juz, and a display
      line naming both. */
  function GetParaInfo(surah: int, verse: int): (info: ParaInfo)
    ensures 1 <= info.paraNumber <= 30
    ensures info.paraNumber == FindParaForVerse(surah, verse)
    ensures info.juzNumber == info.paraNumber
    ensures info.paraNameArabic == ParaNames[info.paraNumber - 1]
    ensures Contains(info.display, info.paraNameArabic)
    ensures Contains(info.display, NatToString(info.paraNumber))
  {
    var p := FindParaForVerse(surah, verse);
    ParaDisplayNames(p);
    ParaInfo(p, ParaName(p), p, ParaDisplay(p))
  }
}
