/** The recognisers of app.py that read a question: its own copy of the Para lookup, surah
    detection (number patterns, then surah names), prophet-name detection and verse-number
    extraction. The regular expressions of the source are hand-coded as the matchers below;
    each tries one position, and a search tries positions from the left like `re.search`. */
module AppLookup {
  import opened Wrappers
  import opened Seqs
  import opened Text
  import QuranMetadata

  // ---------------------------------------------------------------- Para lookup (app copy)

  /** app.py's own PARA_BOUNDARIES. */
  const AppParaBoundaries: seq<(int, int)> := [
    (1, 1), (2, 142), (2, 253), (3, 93), (4, 24), (4, 148), (5, 82), (6, 111), (7, 88), (8, 41),
    (9, 93), (11, 6), (12, 53), (15, 1), (17, 1), (18, 75), (21, 1), (23, 1), (25, 21), (27, 56),
    (29, 46), (33, 31), (36, 28), (39, 32), (41, 47), (46, 1), (51, 31), (58, 1), (67, 1), (78, 1)
  ]

  /** app.py's own PARA_NAMES. */
  const AppParaNames: seq<string> := [
    "آلَیْت",  // 1
    "سَيَقُولُ",  // 2
    "تِلْكَ الرُّسُلُ",  // 3
    "لَنْ تَنَالُوا",  // 4
    "وَالْمُحْصَنَاتُ",  // 5
    "لَا يُحِبُّ اللَّهُ",  // 6
    "وَإِذَا سَمِعُوا",  // 7
    "وَلَوْ أَنَّنَا",  // 8
    "قَالَ الْمَلَأُ",  // 9
    "وَاعْلَمُوا",  // 10
    "يَعْتَذِرُونَ",  // 11
    "وَمَا مِنْ دَابَّةٍ",  // 12
    "وَمَا أُبَرِّئُ",  // 13
    "رُبَمَا",  // 14
    "سُبْحَانَ الَّذِي",  // 15
    "قَالَ أَلَمْ",  // 16
    "اقْتَرَبَ",  // 17
    "قَدْ أَفْلَحَ",  // 18
    "وَقَالَ الَّذِينَ",  // 19
    "أَمَّنْ خَلَقَ",  // 20
    "اتْلُ مَا أُوحِيَ",  // 21
    "وَمَنْ يَقْنُتْ",  // 22
    "وَمَا لِيَ",  // 23
    "فَمَنْ أَظْلَمُ",  // 24
    "إِلَيْهِ يُرَدُّ",  // 25
    "حم",  // 26
    "قَالَ فَمَا خَطْبُكُمْ",  // 27
    "قَدْ سَمِعَ اللَّهُ",  // 28
    "تَبَارَكَ",  // 29
    "عَمَّ"  // 30
  ]

  /** The dictionary get_para_info returns. */
  datatype AppParaInfo = AppParaInfo(paraNumber: nat, juzNumber: nat, arabicName: string, display: string)

  /** `PARA_NAMES.get(p, "")` for a name table keyed 1..|names|. */
  function NameOr(names: seq<string>, p: int): string {
    if 1 <= p <= |names| then names[p - 1] else ""
  }

  /** The dictionary built for Para p, in each of the three return statements. */
  function ParaEntry(names: seq<string>, p: nat): AppParaInfo {
    AppParaInfo(p, p, NameOr(names, p), QuranMetadata.DisplayLine(NatToString(p), NameOr(names, p)))
  }

  /** The loop of get_para_info over a start table, from `para` down, with its two returning
      branches and the fallback dictionary for Para 1. */
  function AppParaScan(bounds: seq<(int, int)>, names: seq<string>, para: nat, surah: int, verse: int): AppParaInfo
    requires para <= |bounds|
    decreases para
  {
    if para == 0 then ParaEntry(names, 1)
    else
      var b := bounds[para - 1];
      if surah > b.0 then ParaEntry(names, para)
      else if surah == b.0 && verse >= b.1 then ParaEntry(names, para)
      else AppParaScan(bounds, names, para - 1, surah, verse)
  }

  /** The two copies of the start table are the same. */
  lemma AppBoundariesAgree()
    ensures AppParaBoundaries == QuranMetadata.ParaBoundaries
  {
  }

  /** The two copies of the name table are the same. */
  lemma AppNamesAgree()
    ensures AppParaNames == QuranMetadata.ParaNames
  {
  }

  /** Over the metadata's start table, the app's scan stops where the metadata scan stops. */
  lemma {:induction false} AppParaScanAgrees(bounds: seq<(int, int)>, names: seq<string>, para: nat, surah: int, verse: int)
    requires bounds == QuranMetadata.ParaBoundaries && para <= 30
    ensures AppParaScan(bounds, names, para, surah, verse) == ParaEntry(names, QuranMetadata.ScanDown(para, surah, verse))
    decreases para
  {
    if para > 0 {
      assert bounds[para - 1] == QuranMetadata.Boundary(para);
      if !QuranMetadata.Reached(QuranMetadata.Boundary(para), surah, verse) {
        AppParaScanAgrees(bounds, names, para - 1, surah, verse);
      }
    }
  }

  /** With the metadata's name table, the dictionary for Para p shows the metadata's name and
      display line. */
  lemma ParaEntryAgrees(names: seq<string>, p: nat)
    requires names == QuranMetadata.ParaNames
    ensures ParaEntry(names, p).arabicName == QuranMetadata.ParaName(p)
    ensures ParaEntry(names, p).display == QuranMetadata.ParaDisplay(p)
  {
  }

  /** get_para_info in app.py: the same Para as quran_metadata's lookup, the same number as
      Juz, and the same name and display line. */
  function AppGetParaInfo(surah: int, verse: int): (info: AppParaInfo)
    ensures info.paraNumber == QuranMetadata.FindParaForVerse(surah, verse)
    ensures 1 <= info.paraNumber <= 30 && info.juzNumber == info.paraNumber
    ensures info.arabicName == QuranMetadata.GetParaInfo(surah, verse).paraNameArabic
    ensures info.display == QuranMetadata.GetParaInfo(surah, verse).display
  {
    AppBoundariesAgree();
    AppNamesAgree();
    AppParaScanAgrees(AppParaBoundaries, AppParaNames, 30, surah, verse);
    ParaEntryAgrees(AppParaNames, QuranMetadata.FindParaForVerse(surah, verse));
    AppParaScan(AppParaBoundaries, AppParaNames, 30, surah, verse)
  }

  // ---------------------------------------------------------------- regular-expression search

  /** `re.search`: the value of the first position, from the left, at which `m` matches. */
  function SearchFrom<T>(m: string -> Option<T>, s: string, i: nat): (r: Option<T>)
    requires i <= |s|
    decreases |s| - i
  {
    match m(s[i..])
    case Some(v) => Some(v)
    case None => if i == |s| then None else SearchFrom(m, s, i + 1)
  }

  function ReSearch<T>(m: string -> Option<T>, s: string): Option<T> {
    SearchFrom(m, s, 0)
  }

  /** The search finds the leftmost matching position, and nothing when no position matches. */
  lemma {:induction false} SearchFromLeftmost<T>(m: string -> Option<T>, s: string, i: nat)
    requires i <= |s|
    ensures SearchFrom(m, s, i).Some? ==>
              exists k :: i <= k <= |s| && m(s[k..]) == SearchFrom(m, s, i)
                       && forall j :: i <= j < k ==> m(s[j..]).None?
    ensures SearchFrom(m, s, i).None? <==> forall j :: i <= j <= |s| ==> m(s[j..]).None?
    decreases |s| - i
  {
    if m(s[i..]).None? && i < |s| {
      SearchFromLeftmost(m, s, i + 1);
      if SearchFrom(m, s, i).Some? {
        var k :| i + 1 <= k <= |s| && m(s[k..]) == SearchFrom(m, s, i + 1)
                 && forall j :: i + 1 <= j < k ==> m(s[j..]).None?;
        assert forall j :: i <= j < k ==> m(s[j..]).None?;
      }
    }
  }

  /** The two shapes of pattern the source uses: words then a number
      (`(?:w1|w2)\s*(\d+)`, or `[:\s]*` when colons may separate), and a number then words
      (`(\d+)(?:st|nd|rd|th)?\s*(?:w1|w2)`, the ordinal suffix optional). */
  datatype Pattern =
    | WordThenNumber(words: seq<string>, colons: bool)
    | NumberThenWord(numberWords: seq<string>, ordinal: bool)

  /** The separator class between the word and the number. */
  predicate IsSeparator(colons: bool, c: char) {
    IsSpace(c) || (colons && c == ':')
  }

  /** `w` followed by separators and at least one digit: the digits' value. The greedy `\d+`
      takes the whole digit run. */
  function WordNumberAt(w: string, colons: bool, s: string): Option<nat> {
    if !(w <= s) then None
    else
      var digits := LeadingDigits(StripLeft(s[|w|..], (c: char) => IsSeparator(colons, c)));
      if |digits| == 0 then None else Some(DigitsValue(digits))
  }

  /** Whitespace and then one of the words. */
  predicate SpacedWordAt(words: seq<string>, s: string) {
    FirstIndex(words, (w: string) => w <= StripLeft(s, IsSpace)).Some?
  }

  /** The ordinal suffixes of `(?:st|nd|rd|th)?`. */
  const Ordinals: seq<string> := ["st", "nd", "rd", "th"]

  /** The digit run at the front of `s` followed, after an optional ordinal suffix when
      allowed, by whitespace and one of the words. The suffix is tried first, as the greedy
      `?` does; a digit run cannot be shortened, since a digit follows any shorter one. */
  function NumberWordAt(words: seq<string>, ordinal: bool, s: string): Option<nat> {
    var digits := LeadingDigits(s);
    var rest := s[|digits|..];
    if |digits| == 0 then None
    else if ordinal && FirstIndex(Ordinals, (o: string) => o <= rest && SpacedWordAt(words, rest[|o|..])).Some?
    then Some(DigitsValue(digits))
    else if SpacedWordAt(words, rest) then Some(DigitsValue(digits))
    else None
  }

  /** One pattern at the front of `s`; the alternatives of a group are tried in order. */
  function MatchAt(p: Pattern, s: string): Option<nat> {
    match p
    case WordThenNumber(words, colons) =>
      (match FirstIndex(words, (w: string) => WordNumberAt(w, colons, s).Some?)
       case Some(i) => WordNumberAt(words[i], colons, s)
       case None => None)
    case NumberThenWord(words, ordinal) => NumberWordAt(words, ordinal, s)
  }

  /** `re.search(pattern, s)` and `int(match.group(1))`. */
  function PatternSearch(p: Pattern, s: string): Option<nat> {
    ReSearch((t: string) => MatchAt(p, t), s)
  }

  // ---------------------------------------------------------------- surah detection

  /** SURAH_MAP, whose keys the source lists surah by surah in ascending order: group k - 1
      holds the keys that map to k, in the dictionary's order. */
  const SurahNames: seq<seq<string>> := [
    /* 1 */ ["fatiha", "الفاتحة"],
    /* 2 */ ["baqarah", "البقرة"],
    /* 3 */ ["imran", "عمران"],
    /* 4 */ ["nisa", "النساء"],
    /* 5 */ ["maidah", "المائدة"],
    /* 6 */ ["anaam", "الأنعام"],
    /* 7 */ ["araf", "الأعراف"],
    /* 8 */ ["anfal", "الأنفال"],
    /* 9 */ ["tawbah", "التوبة"],
    /* 10 */ ["yunus", "يونس"],
    /* 11 */ ["hud", "هود"],
    /* 12 */ ["yusuf", "يوسف"],
    /* 13 */ ["raad", "الرعد"],
    /* 14 */ ["ibrahim", "إبراهيم"],
    /* 15 */ ["hijr", "الحجر"],
    /* 16 */ ["nahl", "النحل"],
    /* 17 */ ["isra", "الإسراء"],
    /* 18 */ ["kahf", "الكهف"],
    /* 19 */ ["maryam", "مريم"],
    /* 20 */ ["taha", "طه"],
    /* 21 */ ["anbiya", "الأنبياء"],
    /* 22 */ ["hajj", "الحج"],
    /* 23 */ ["muminun", "المؤمنون"],
    /* 24 */ ["nur", "النور"],
    /* 25 */ ["furqan", "الفرقان"],
    /* 26 */ ["shuara", "الشعراء"],
    /* 27 */ ["naml", "النمل"],
    /* 28 */ ["qasas", "القصص"],
    /* 29 */ ["ankabut", "العنكبوت"],
    /* 30 */ ["rum", "الروم"],
    /* 31 */ ["luqman", "لقمان"],
    /* 32 */ ["sajdah", "السجدة"],
    /* 33 */ ["ahzab", "الأحزاب"],
    /* 34 */ ["saba", "سبأ"],
    /* 35 */ ["fatir", "فاطر"],
    /* 36 */ ["yaseen", "يس", "ya sin", "yasin"],
    /* 37 */ ["saffat", "الصافات"],
    /* 38 */ ["sad", "ص"],
    /* 39 */ ["zumar", "الزمر"],
    /* 40 */ ["ghafir", "غافر"],
    /* 41 */ ["fussilat", "فصلت"],
    /* 42 */ ["shura", "الشورى"],
    /* 43 */ ["zukhruf", "الزخرف"],
    /* 44 */ ["dukhan", "الدخان"],
    /* 45 */ ["jathiyah", "الجاثية"],
    /* 46 */ ["ahqaf", "الأحقاف"],
    /* 47 */ ["muhammad", "محمد"],
    /* 48 */ ["fath", "الفتح"],
    /* 49 */ ["hujurat", "الحجرات"],
    /* 50 */ ["qaf", "ق"],
    /* 51 */ ["dhariyat", "الذاريات"],
    /* 52 */ ["tur", "الطور"],
    /* 53 */ ["najm", "النجم"],
    /* 54 */ ["qamar", "القمر"],
    /* 55 */ ["rahman", "الرحمن"],
    /* 56 */ ["waqiah", "الواقعة"],
    /* 57 */ ["hadid", "الحديد"],
    /* 58 */ ["mujadila", "المجادلة"],
    /* 59 */ ["hashr", "الحشر"],
    /* 60 */ ["mumtahina", "الممتحنة"],
    /* 61 */ ["saff", "الصف"],
    /* 62 */ ["jumuah", "الجمعة"],
    /* 63 */ ["munafiqun", "المنافقون"],
    /* 64 */ ["taghabun", "التغابن"],
    /* 65 */ ["talaq", "الطلاق"],
    /* 66 */ ["tahrim", "التحريم"],
    /* 67 */ ["mulk", "الملك"],
    /* 68 */ ["qalam", "القلم"],
    /* 69 */ ["haqqah", "الحاقة"],
    /* 70 */ ["maarij", "المعارج"],
    /* 71 */ ["nuh", "نوح"],
    /* 72 */ ["jinn", "الجن"],
    /* 73 */ ["muzzammil", "المزمل"],
    /* 74 */ ["muddaththir", "المدثر"],
    /* 75 */ ["qiyamah", "القيامة"],
    /* 76 */ ["insan", "الإنسان"],
    /* 77 */ ["mursalat", "المرسلات"],
    /* 78 */ ["naba", "النبأ"],
    /* 79 */ ["naziat", "النازعات"],
    /* 80 */ ["abasa", "عبس"],
    /* 81 */ ["takwir", "التكوير"],
    /* 82 */ ["infitar", "الانفطار"],
    /* 83 */ ["mutaffifin", "المطففين"],
    /* 84 */ ["inshiqaq", "الانشقاق"],
    /* 85 */ ["buruj", "البروج"],
    /* 86 */ ["tariq", "الطارق"],
    /* 87 */ ["ala", "الأعلى"],
    /* 88 */ ["ghashiyah", "الغاشية"],
    /* 89 */ ["fajr", "الفجر"],
    /* 90 */ ["balad", "البلد"],
    /* 91 */ ["shams", "الشمس"],
    /* 92 */ ["layl", "الليل"],
    /* 93 */ ["duha", "الضحى"],
    /* 94 */ ["sharh", "الشرح"],
    /* 95 */ ["tin", "التين"],
    /* 96 */ ["alaq", "العلق"],
    /* 97 */ ["qadr", "القدر"],
    /* 98 */ ["bayyinah", "البينة"],
    /* 99 */ ["zalzalah", "الزلزلة"],
    /* 100 */ ["adiyat", "العاديات"],
    /* 101 */ ["qariah", "القارعة"],
    /* 102 */ ["takathur", "التكاثر"],
    /* 103 */ ["asr", "العصر"],
    /* 104 */ ["humazah", "الهمزة"],
    /* 105 */ ["fil", "الفيل"],
    /* 106 */ ["quraish", "قريش"],
    /* 107 */ ["maun", "الماعون"],
    /* 108 */ ["kauthar", "kawthar", "kausar", "الكوثر"],
    /* 109 */ ["kafirun", "الكافرون"],
    /* 110 */ ["nasr", "النصر"],
    /* 111 */ ["masad", "المسد", "lahab"],
    /* 112 */ ["ikhlas", "الإخلاص"],
    /* 113 */ ["falaq", "الفلق"],
    /* 114 */ ["nas", "الناس"]
  ]

  /** There is a group for each of the 114 surahs. */
  lemma SurahNamesCount()
    ensures |SurahNames| == 114
  {
  }

  /** `SURAH_MAP.get(name)` over a table grouped by surah, with 0 for a missing key (no key
      repeats, so the first group holding it is the dictionary's value). */
  function SurahOfName(table: seq<seq<string>>, name: string): (r: nat)
    ensures r <= |table|
    ensures r > 0 ==> name in table[r - 1]
    ensures r == 0 <==> forall g :: 0 <= g < |table| ==> name !in table[g]
  {
    match FirstIndex(table, (g: seq<string>) => name in g)
    case Some(i) => i + 1
    case None => 0
  }

  /** The typo fixes, applied one after another. */
  function FixTypos(lower: string): string {
    var a := Replace(lower, "baqrah", "baqarah");
    var b := Replace(a, "bakarah", "baqarah");
    var c := Replace(b, "baqra", "baqarah");
    var d := Replace(c, "an naas", "nas");
    Replace(d, "annaas", "nas")
  }

  const SurahWords: seq<string> := ["surah", "sura", "chapter"]

  /** `(?:surah|sura|chapter)[\s]*(\d+)` and `(\d+)(?:st|nd|rd|th)?\s*(?:surah|sura|chapter)`.
      The third pattern, `(?:show|read|get)[\s]*(?:me)?[\s]*(?:surah)[\s]*(\d+)`, is left
      out: every text it matches contains `surah`, optional whitespace and a digit, which the
      first pattern already matches, so it is never reached. */
  const SurahPatterns: seq<Pattern> := [WordThenNumber(SurahWords, false), NumberThenWord(SurahWords, true)]

  /** The first pattern that matches anywhere gives the value, whatever it is: no earlier
      pattern matches. */
  function FirstPatternMatch(patterns: seq<Pattern>, s: string): (r: Option<nat>)
    ensures r.Some? ==>
              exists i :: && 0 <= i < |patterns| && PatternSearch(patterns[i], s) == r
                          && forall j :: 0 <= j < i ==> PatternSearch(patterns[j], s).None?
    ensures r.None? <==> forall i :: 0 <= i < |patterns| ==> PatternSearch(patterns[i], s).None?
  {
    match FirstIndex(patterns, (p: Pattern) => PatternSearch(p, s).Some?)
    case Some(i) => PatternSearch(patterns[i], s)
    case None => None
  }

  /** The first name pass: the surah of the first whitespace word that is a key. */
  function WordPass(table: seq<seq<string>>, lower: string): (r: Option<nat>)
    ensures r.Some? ==> 0 < r.value <= |table| && exists w :: w in Words(lower) && SurahOfName(table, w) == r.value
    ensures r.Some? ==>
              exists i :: && 0 <= i < |Words(lower)| && SurahOfName(table, Words(lower)[i]) == r.value
                          && forall j :: 0 <= j < i ==> SurahOfName(table, Words(lower)[j]) == 0
    ensures r.None? <==> forall w :: w in Words(lower) ==> SurahOfName(table, w) == 0
  {
    var ws := Words(lower);
    match FirstIndex(ws, (w: string) => SurahOfName(table, w) > 0)
    case Some(i) =>
      assert ws[i] in ws;
      Some(SurahOfName(table, ws[i]))
    case None =>
      assert forall w :: w in ws ==> SurahOfName(table, w) == 0;
      None
  }

  /** The second name pass: the surah of the first group holding a key longer than 2
      characters found inside the text, else 0. */
  function SubstringPass(table: seq<seq<string>>, lower: string): (r: nat)
    ensures r <= |table|
    ensures r > 0 ==> exists name :: name in table[r - 1] && |name| > 2 && Contains(lower, name)
    ensures r > 0 ==>
              forall g, name :: 0 <= g < r - 1 && name in table[g] && |name| > 2 ==> !Contains(lower, name)
    ensures r == 0 <==>
              forall g, name :: 0 <= g < |table| && name in table[g] && |name| > 2 ==> !Contains(lower, name)
  {
    SubstringPassFacts(table, lower);
    match FirstIndex(table, (g: seq<string>) => HasLongNameIn(g, lower))
    case Some(g) => g + 1
    case None => 0
  }

  /** The two name passes: the whole-word pass, else the substring pass. */
  function SurahByName(table: seq<seq<string>>, lower: string): (r: nat)
    ensures r <= |table|
    ensures r > 0 ==>
              (exists w :: w in Words(lower) && SurahOfName(table, w) == r)
              || (exists name :: name in table[r - 1] && |name| > 2 && Contains(lower, name))
    ensures r == 0 <==>
              (forall w :: w in Words(lower) ==> SurahOfName(table, w) == 0)
              && (forall g, name :: 0 <= g < |table| && name in table[g] && |name| > 2 ==> !Contains(lower, name))
    ensures WordPass(table, lower).Some? ==> r == WordPass(table, lower).value
    ensures WordPass(table, lower).None? ==> r == SubstringPass(table, lower)
  {
    match WordPass(table, lower)
    case Some(v) => v
    case None => SubstringPass(table, lower)
  }

  /** Some key of the group longer than 2 characters occurs in the text. */
  predicate HasLongNameIn(g: seq<string>, lower: string) {
    FirstIndex(g, (name: string) => |name| > 2 && Contains(lower, name)).Some?
  }

  /** What the group test means. */
  lemma SubstringPassFacts(table: seq<seq<string>>, lower: string)
    ensures forall g :: 0 <= g < |table| ==>
              (HasLongNameIn(table[g], lower) <==>
                 exists name :: name in table[g] && |name| > 2 && Contains(lower, name))
  {
    forall g | 0 <= g < |table|
      ensures HasLongNameIn(table[g], lower) <==>
                exists name :: name in table[g] && |name| > 2 && Contains(lower, name)
    {
      var names := table[g];
      var r := FirstIndex(names, (name: string) => |name| > 2 && Contains(lower, name));
      if r.Some? {
        assert names[r.value] in names;
      }
    }
  }

  /** detect_surah_number: lower-case, fix typos, then the number patterns, then the names
      of SURAH_MAP. */
  function DetectSurahNumber(question: string): (r: nat)
    ensures FirstPatternMatch(SurahPatterns, FixTypos(Lower(question))).Some? ==>
              r == FirstPatternMatch(SurahPatterns, FixTypos(Lower(question))).value
    ensures FirstPatternMatch(SurahPatterns, FixTypos(Lower(question))).None? ==>
              r <= 114 && r == SurahByName(SurahNames, FixTypos(Lower(question)))
  {
    SurahNamesCount();
    var lower := FixTypos(Lower(question));
    match FirstPatternMatch(SurahPatterns, lower)
    case Some(v) => v
    case None => SurahByName(SurahNames, lower)
  }

  // ---------------------------------------------------------------- prophet detection

  /** PROPHET_NAMES in dictionary order: (key, Arabic name). */
  const ProphetNames: seq<(string, string)> := [
    ("adam", "آدم"),
    ("ادم", "آدم"),
    ("idris", "إدريس"),
    ("ادریس", "إدريس"),
    ("nuh", "نوح"),
    ("نوح", "نوح"),
    ("hud", "هود"),
    ("ہود", "هود"),
    ("salih", "صالح"),
    ("صالح", "صالح"),
    ("ibrahim", "إبراهيم"),
    ("ابراہیم", "إبراهيم"),
    ("abraham", "إبراهيم"),
    ("lut", "لوط"),
    ("لوط", "لوط"),
    ("ismail", "إسماعيل"),
    ("اسماعیل", "إسماعيل"),
    ("ishmael", "إسماعيل"),
    ("ishaq", "إسحاق"),
    ("اسحاق", "إسحاق"),
    ("isaac", "إسحاق"),
    ("yaqub", "يعقوب"),
    ("یعقوب", "يعقوب"),
    ("jacob", "يعقوب"),
    ("yusuf", "يوسف"),
    ("یوسف", "يوسف"),
    ("joseph", "يوسف"),
    ("ayyub", "أيوب"),
    ("ایوب", "أيوب"),
    ("job", "أيوب"),
    ("shuayb", "شعيب"),
    ("شعیب", "شعيب"),
    ("musa", "موسى"),
    ("موسی", "موسى"),
    ("moses", "موسى"),
    ("harun", "هارون"),
    ("ہارون", "هارون"),
    ("aaron", "هارون"),
    ("dawud", "داود"),
    ("داؤد", "داود"),
    ("david", "داود"),
    ("sulayman", "سليمان"),
    ("سلیمان", "سليمان"),
    ("solomon", "سليمان"),
    ("ilyas", "إلياس"),
    ("الیاس", "إلياس"),
    ("elijah", "إلياس"),
    ("alyasa", "اليسع"),
    ("الیسع", "اليسع"),
    ("elisha", "اليسع"),
    ("dhul kifl", "ذو الكفل"),
    ("ذوالکفل", "ذو الكفل"),
    ("yunus", "يونس"),
    ("یونس", "يونس"),
    ("jonah", "يونس"),
    ("zakariyya", "زكريا"),
    ("زکریا", "زكريا"),
    ("zechariah", "زكريا"),
    ("yahya", "يحيى"),
    ("یحیی", "يحيى"),
    ("john", "يحيى"),
    ("isa", "عيسى"),
    ("عیسی", "عيسى"),
    ("jesus", "عيسى"),
    ("muhammad", "محمد"),
    ("محمد", "محمد")
  ]

  /** The first entry of a (key, name) table whose key occurs in the lower-cased question. */
  function FirstProphetIn(table: seq<(string, string)>, lower: string): (r: Option<(string, string)>)
    ensures r.Some? ==> r.value in table && Contains(lower, r.value.0)
    ensures r.Some? ==> exists i :: 0 <= i < |table| && table[i] == r.value
                         && forall j :: 0 <= j < i ==> !Contains(lower, table[j].0)
    ensures r.None? <==> forall i :: 0 <= i < |table| ==> !Contains(lower, table[i].0)
  {
    match FirstIndex(table, (e: (string, string)) => Contains(lower, e.0))
    case Some(i) => Some(table[i])
    case None => None
  }

  /** detect_prophet_name: the first PROPHET_NAMES entry, in dictionary order, whose key occurs
      in the lower-cased question; nothing when none does. */
  function DetectProphetName(question: string): (r: Option<(string, string)>)
    ensures r.Some? ==> r.value in ProphetNames && Contains(Lower(question), r.value.0)
    ensures r.Some? ==> exists i :: 0 <= i < |ProphetNames| && ProphetNames[i] == r.value
                         && forall j :: 0 <= j < i ==> !Contains(Lower(question), ProphetNames[j].0)
    ensures r.None? <==> forall i :: 0 <= i < |ProphetNames| ==> !Contains(Lower(question), ProphetNames[i].0)
  {
    FirstProphetIn(ProphetNames, Lower(question))
  }

  // ---------------------------------------------------------------- verse extraction

  /** The twelve verse patterns, in order. */
  const VersePatterns: seq<Pattern> := [
    WordThenNumber(["verse"], false),
    WordThenNumber(["verses"], false),
    WordThenNumber(["verrse"], false),
    WordThenNumber(["vers"], false),
    WordThenNumber(["v"], false),
    WordThenNumber(["ayah"], false),
    WordThenNumber(["ayat"], false),
    NumberThenWord(["verse"], true),
    NumberThenWord(["verrse"], true),
    NumberThenWord(["ayah"], true),
    WordThenNumber(["verse"], true),
    NumberThenWord(["only", "number", "no"], false)
  ]

  /** The first pattern whose match has a positive value; a match of 0 moves on to the next
      pattern. */
  function FirstPositiveMatch(patterns: seq<Pattern>, s: string): (r: Option<nat>)
    ensures r.Some? ==> r.value > 0
    ensures r.Some? ==>
              exists i :: && 0 <= i < |patterns| && PatternSearch(patterns[i], s) == r
                          && forall j :: 0 <= j < i ==>
                               PatternSearch(patterns[j], s).None? || PatternSearch(patterns[j], s).value == 0
    ensures r.None? <==> forall i :: 0 <= i < |patterns| ==>
              PatternSearch(patterns[i], s).None? || PatternSearch(patterns[i], s).value == 0
  {
    match FirstIndex(patterns, (p: Pattern) => PatternSearch(p, s).Some? && PatternSearch(p, s).value > 0)
    case Some(i) => PatternSearch(patterns[i], s)
    case None => None
  }

  /** A whitespace word the fallback accepts: all digits, with a value from 1 to 286. */
  predicate IsVerseWord(w: string) {
    IsDigits(w) && 1 <= DigitsValue(w) <= 286
  }

  /** The standalone-number fallback: the first such word. */
  function StandaloneVerse(lower: string): (r: Option<nat>)
    ensures r.Some? ==> 1 <= r.value <= 286
    ensures r.Some? ==> exists w :: w in Words(lower) && IsVerseWord(w) && DigitsValue(w) == r.value
    ensures r.Some? ==>
              exists i :: && 0 <= i < |Words(lower)| && IsVerseWord(Words(lower)[i])
                          && DigitsValue(Words(lower)[i]) == r.value
                          && forall j :: 0 <= j < i ==> !IsVerseWord(Words(lower)[j])
    ensures r.None? <==> forall w :: w in Words(lower) ==> !IsVerseWord(w)
  {
    var ws := Words(lower);
    match FirstIndex(ws, IsVerseWord)
    case Some(i) => assert ws[i] in ws; Some(DigitsValue(ws[i]))
    case None => None
  }

  /** The phrases that stand for Ayat-ul-Kursi, 2:255. */
  predicate MentionsKursi(lower: string) {
    Contains(lower, "255") || Contains(lower, "ayat kursi") || Contains(lower, "throne verse")
  }

  /** extract_verse_number: 255 for the Ayat-ul-Kursi phrases, else the first positive pattern
      value, else the first standalone number from 1 to 286, else nothing. */
  function ExtractVerseNumber(question: string): (r: Option<nat>)
    ensures MentionsKursi(Lower(question)) ==> r == Some(255)
    ensures r.Some? ==> r.value >= 1
    ensures !MentionsKursi(Lower(question)) && FirstPositiveMatch(VersePatterns, Lower(question)).Some? ==>
              r == FirstPositiveMatch(VersePatterns, Lower(question))
    ensures !MentionsKursi(Lower(question)) && FirstPositiveMatch(VersePatterns, Lower(question)).None? ==>
              r == StandaloneVerse(Lower(question)) && (r.Some? ==> r.value <= 286)
  {
    var lower := Lower(question);
    if MentionsKursi(lower) then Some(255)
    else match FirstPositiveMatch(VersePatterns, lower)
      case Some(v) => Some(v)
      case None => StandaloneVerse(lower)
  }

  // ---------------------------------------------------------------- exact reference

  /** `(\d+)[:\s](\d+)` at the front of `s`: two digit runs joined by one colon or whitespace
      character. The optional `(?:surah\s*)?` prefix of the source's pattern is dropped: it
      contains no digit, so the leftmost match and its groups are the same without it. */
  function ReferenceAt(s: string): Option<(nat, nat)> {
    var first := LeadingDigits(s);
    var rest := s[|first|..];
    if |first| == 0 || rest == [] || !(rest[0] == ':' || IsSpace(rest[0])) then None
    else
      var second := LeadingDigits(rest[1..]);
      if |second| == 0 then None else Some((DigitsValue(first), DigitsValue(second)))
  }

  /** The exact-verse search of ask_question. */
  function ExactReference(lower: string): Option<(nat, nat)> {
    ReSearch(ReferenceAt, lower)
  }
}
