/** The deciding part of the `/ask` handler in app.py: the topic keyword loop, the topic verse
    list, the shortest and longest surah tables, the fixed cascade of handlers, the filter on
    semantic results, and the startup choice between loading and building the index. Every
    reply is the data the handler would format; the markdown text itself is not modelled. */
module AppRouting {
  import opened Wrappers
  import opened Seqs
  import opened Text
  import opened QuranSource
  import opened AppLookup
  import QuranSearchEngine

  // ---------------------------------------------------------------- topics

  /** The keyword lists of `ask_question`'s topic loop, in the dictionary's order. */
  const Topics: seq<(string, seq<string>)> := [
    ("zakat", ["zakat", "zakah", "charity", "alms", "زكاة"]),
    ("hajj", ["hajj", "pilgrimage", "حج"]),
    ("divorce", ["divorce", "talaq", "طلاق"]),
    ("sacrifice", ["sacrifice", "qurbani", "qurabni", "قربانی"]),
    ("patience", ["patience", "sabr", "صبر"]),
    ("prayer", ["prayer", "salah", "salat", "namaz", "صلاة"]),
    ("fasting", ["fasting", "sawm", "roza", "صوم"]),
    ("mercy", ["mercy", "rahmah", "رحمة"])
  ]

  predicate HasKeyword(keywords: seq<string>, lower: string) {
    exists k :: 0 <= k < |keywords| && Contains(lower, keywords[k])
  }

  /** The first topic of `topics` one of whose keywords occurs in `lower`. */
  function FirstTopicIn(topics: seq<(string, seq<string>)>, lower: string): (r: Option<string>)
    ensures r.Some? ==> exists i :: 0 <= i < |topics| && topics[i].0 == r.value && HasKeyword(topics[i].1, lower)
                                    && forall j :: 0 <= j < i ==> !HasKeyword(topics[j].1, lower)
    ensures r.None? <==> forall i :: 0 <= i < |topics| ==> !HasKeyword(topics[i].1, lower)
  {
    match FirstIndex(topics, (t: (string, seq<string>)) => HasKeyword(t.1, lower))
    case Some(i) => Some(topics[i].0)
    case None => None
  }

  /** The nested `for topic, keywords ...: for keyword in keywords: ... break` loop. */
  method DetectTopic(topics: seq<(string, seq<string>)>, lower: string) returns (detected: Option<string>)
    ensures detected == FirstTopicIn(topics, lower)
  {
    detected := None;
    var t := 0;
    while t < |topics|
      invariant 0 <= t <= |topics|
      invariant forall j :: 0 <= j < t ==> !HasKeyword(topics[j].1, lower)
      invariant detected.None?
    {
      var keywords := topics[t].1;
      var k := 0;
      while k < |keywords|
        invariant 0 <= k <= |keywords|
        invariant forall m :: 0 <= m < k ==> !Contains(lower, keywords[m])
      {
        if Contains(lower, keywords[k]) {
          detected := Some(topics[t].0);
          break;
        }
        k := k + 1;
      }
      if detected.Some? {
        assert HasKeyword(topics[t].1, lower);
        break;
      }
      t := t + 1;
    }
  }

  // ---------------------------------------------------------------- topic verses

  /** A reference `"s:v"` of `TOPIC_VERSES`, already split and converted. */
  datatype Ref = Ref(surah: nat, verse: nat)

  const ZakatRefs: seq<Ref> := [
    Ref(2, 43), Ref(2, 83), Ref(2, 110), Ref(2, 177), Ref(2, 254), Ref(2, 261), Ref(2, 262), Ref(2, 263),
    Ref(2, 264), Ref(2, 265), Ref(2, 266), Ref(2, 267), Ref(2, 271), Ref(2, 274), Ref(2, 276), Ref(2, 277),
    Ref(4, 77), Ref(4, 114), Ref(4, 162), Ref(5, 12), Ref(5, 55), Ref(7, 156), Ref(9, 5), Ref(9, 11),
    Ref(9, 18), Ref(9, 34), Ref(9, 35), Ref(9, 54), Ref(9, 58), Ref(9, 60), Ref(9, 71), Ref(9, 99),
    Ref(9, 103), Ref(13, 22), Ref(14, 31), Ref(18, 81), Ref(19, 31), Ref(19, 55), Ref(21, 73), Ref(22, 41),
    Ref(22, 78), Ref(23, 4), Ref(24, 22), Ref(24, 33), Ref(24, 56), Ref(27, 3), Ref(30, 38), Ref(30, 39),
    Ref(31, 4), Ref(33, 33), Ref(41, 6), Ref(41, 7), Ref(51, 19), Ref(58, 13), Ref(63, 10), Ref(64, 16),
    Ref(70, 24), Ref(70, 25), Ref(73, 20), Ref(92, 5), Ref(92, 18), Ref(98, 5)
  ]

  const HajjRefs: seq<Ref> := [
    Ref(2, 158), Ref(2, 189), Ref(2, 196), Ref(2, 197), Ref(2, 198), Ref(2, 199), Ref(2, 200), Ref(2, 201),
    Ref(2, 202), Ref(2, 203), Ref(3, 97), Ref(5, 2), Ref(22, 26), Ref(22, 27), Ref(22, 28), Ref(22, 29),
    Ref(22, 30), Ref(22, 31), Ref(22, 32), Ref(22, 33), Ref(22, 34), Ref(22, 35), Ref(22, 36), Ref(22, 37),
    Ref(48, 25), Ref(48, 27)
  ]

  const DivorceRefs: seq<Ref> := [
    Ref(2, 226), Ref(2, 227), Ref(2, 228), Ref(2, 229), Ref(2, 230), Ref(2, 231), Ref(2, 232), Ref(2, 233),
    Ref(2, 234), Ref(2, 235), Ref(2, 236), Ref(2, 237), Ref(2, 240), Ref(2, 241), Ref(4, 35), Ref(33, 49),
    Ref(65, 1), Ref(65, 2), Ref(65, 3), Ref(65, 4), Ref(65, 5), Ref(65, 6), Ref(65, 7)
  ]

  const SacrificeRefs: seq<Ref> := [
    Ref(2, 173), Ref(2, 196), Ref(3, 183), Ref(5, 3), Ref(5, 27), Ref(5, 30), Ref(6, 145), Ref(16, 115),
    Ref(22, 34), Ref(22, 36), Ref(22, 37), Ref(37, 107), Ref(108, 2)
  ]

  const PatienceRefs: seq<Ref> := [
    Ref(2, 45), Ref(2, 153), Ref(2, 155), Ref(2, 156), Ref(2, 157), Ref(2, 177), Ref(2, 250), Ref(3, 17),
    Ref(3, 120), Ref(3, 146), Ref(3, 186), Ref(3, 200), Ref(8, 46), Ref(8, 66), Ref(11, 11), Ref(11, 115),
    Ref(12, 18), Ref(12, 83), Ref(12, 90), Ref(13, 22), Ref(13, 24), Ref(14, 12), Ref(16, 42), Ref(16, 96),
    Ref(16, 110), Ref(16, 126), Ref(16, 127), Ref(18, 28), Ref(19, 65), Ref(20, 130), Ref(20, 132), Ref(21, 83),
    Ref(21, 84), Ref(21, 85), Ref(22, 35), Ref(25, 20), Ref(25, 63), Ref(25, 75), Ref(28, 54), Ref(28, 80),
    Ref(29, 59), Ref(30, 60), Ref(31, 17), Ref(32, 24), Ref(37, 102), Ref(38, 17), Ref(38, 44), Ref(39, 10),
    Ref(40, 55), Ref(40, 77), Ref(41, 30), Ref(41, 35), Ref(42, 33), Ref(42, 43), Ref(46, 13), Ref(46, 35),
    Ref(50, 38), Ref(52, 48), Ref(68, 48), Ref(70, 5), Ref(73, 10), Ref(74, 7), Ref(76, 12), Ref(76, 24),
    Ref(103, 3)
  ]

  const PrayerRefs: seq<Ref> := [
    Ref(2, 3), Ref(2, 43), Ref(2, 45), Ref(2, 83), Ref(2, 110), Ref(2, 125), Ref(2, 153), Ref(2, 157),
    Ref(2, 177), Ref(2, 238), Ref(2, 239), Ref(2, 277), Ref(4, 43), Ref(4, 77), Ref(4, 101), Ref(4, 102),
    Ref(4, 103), Ref(4, 142), Ref(4, 162), Ref(5, 6), Ref(5, 12), Ref(5, 55), Ref(5, 58), Ref(5, 91),
    Ref(6, 72), Ref(6, 92), Ref(7, 170), Ref(8, 3), Ref(9, 5), Ref(9, 11), Ref(9, 18), Ref(9, 54),
    Ref(9, 71), Ref(9, 99), Ref(9, 103), Ref(9, 108), Ref(10, 87), Ref(11, 114), Ref(13, 22), Ref(14, 31),
    Ref(14, 37), Ref(14, 40), Ref(17, 78), Ref(17, 79), Ref(17, 110), Ref(19, 31), Ref(19, 55), Ref(19, 59),
    Ref(20, 14), Ref(20, 130), Ref(20, 132), Ref(21, 73), Ref(22, 26), Ref(22, 35), Ref(22, 41), Ref(23, 2),
    Ref(23, 9), Ref(24, 37), Ref(24, 56), Ref(24, 58), Ref(25, 64), Ref(26, 219), Ref(27, 3), Ref(29, 45),
    Ref(30, 31), Ref(31, 4), Ref(31, 17), Ref(33, 33), Ref(33, 56), Ref(35, 29), Ref(38, 18), Ref(42, 38),
    Ref(50, 39), Ref(50, 40), Ref(52, 48), Ref(52, 49), Ref(62, 9), Ref(62, 10), Ref(70, 22), Ref(70, 23),
    Ref(70, 34), Ref(73, 1), Ref(73, 2), Ref(73, 3), Ref(73, 4), Ref(73, 5), Ref(73, 6), Ref(73, 7),
    Ref(73, 8), Ref(73, 20), Ref(75, 31), Ref(75, 32), Ref(98, 5), Ref(107, 4), Ref(107, 5), Ref(108, 2)
  ]

  /** `TOPIC_VERSES`: fasting and mercy have keywords but no entry. */
  const TopicVerseTable: seq<(string, seq<Ref>)> := [
    ("zakat", ZakatRefs), ("hajj", HajjRefs), ("divorce", DivorceRefs),
    ("sacrifice", SacrificeRefs), ("patience", PatienceRefs), ("prayer", PrayerRefs)
  ]

  /** `table[topic]`, or `None` when the topic is not a key. */
  function LookupTopic(table: seq<(string, seq<Ref>)>, topic: string): (r: Option<seq<Ref>>)
    ensures r.Some? <==> exists i :: 0 <= i < |table| && table[i].0 == topic
    ensures r.Some? ==> exists i :: 0 <= i < |table| && table[i] == (topic, r.value)
  {
    match FirstIndex(table, (e: (string, seq<Ref>)) => e.0 == topic)
    case Some(i) => Some(table[i].1)
    case None => None
  }

  /** The keyword lists and the verse lists the topic handler works from. */
  datatype TopicTables = TopicTables(keywords: seq<(string, seq<string>)>, verses: seq<(string, seq<Ref>)>)

  const AppTopics: TopicTables := TopicTables(Topics, TopicVerseTable)

  /** One listed verse: its reference and the para line shown beside it. */
  datatype TopicEntry = TopicEntry(ref: Ref, para: AppParaInfo)

  /** The topic answer: the listed verses and the size of the whole reference list. */
  datatype TopicAnswer = TopicAnswer(topic: string, entries: seq<TopicEntry>, total: nat)

  /** Whether `get_specific_verse` reports `success` for the reference. */
  function Available(client: Client): Ref -> bool {
    (r: Ref) => client.verseAvailable(r.surah, r.verse)
  }

  function EntryOf(r: Ref): TopicEntry {
    TopicEntry(r, AppGetParaInfo(r.surah, r.verse))
  }

  function Entries(refs: seq<Ref>): (es: seq<TopicEntry>)
    ensures |es| == |refs|
    ensures forall i :: 0 <= i < |refs| ==> es[i] == EntryOf(refs[i])
  {
    seq(|refs|, i requires 0 <= i < |refs| => EntryOf(refs[i]))
  }

  /** What `get_topic_verses_response(topic)` lists: of the first ten references, those the
      client serves, in order; `None` for an unknown topic or when none of the ten is served. */
  function TopicResponseIn(table: seq<(string, seq<Ref>)>, client: Client, topic: string): Option<TopicAnswer> {
    match LookupTopic(table, topic)
    case None => None
    case Some(refs) =>
      var shown := Filter(Take(refs, 10), Available(client));
      if shown == [] then None else Some(TopicAnswer(topic, Entries(shown), |refs|))
  }


  /** `get_topic_verses_response`: the loop over the first ten references that counts and
      lists the ones the client serves. */
  method TopicVersesResponse(table: seq<(string, seq<Ref>)>, client: Client, topic: string)
    returns (answer: Option<TopicAnswer>)
    ensures answer == TopicResponseIn(table, client, topic)
  {
    var found := LookupTopic(table, topic);
    if found.None? {
      return None;
    }
    var verseRefs := found.value;
    var first := Take(verseRefs, 10);
    var entries: seq<TopicEntry> := [];
    ghost var shown: seq<Ref> := [];
    var count := 0;
    var i := 0;
    while i < |first|
      invariant 0 <= i <= |first|
      invariant shown == Filter(first[..i], Available(client))
      invariant entries == Entries(shown)
      invariant count == |entries|
    {
      var ref := first[i];
      FilterSnoc(first[..i], ref, Available(client));
      assert first[..i + 1] == first[..i] + [ref];
      if client.verseAvailable(ref.surah, ref.verse) {
        count := count + 1;
        entries := entries + [EntryOf(ref)];
        shown := shown + [ref];
      }
      i := i + 1;
    }
    assert first[..i] == first;
    if count == 0 {
      return None;
    }
    answer := Some(TopicAnswer(topic, entries, |verseRefs|));
  }

  /** `None` exactly for an unknown topic or when none of its first ten references is served;
      otherwise at most ten entries, each served, with the count of the whole list. */
  lemma TopicResponseFacts(table: seq<(string, seq<Ref>)>, client: Client, topic: string)
    ensures TopicResponseIn(table, client, topic).None? <==>
      (|| LookupTopic(table, topic).None?
       || forall i :: 0 <= i < Min(10, |LookupTopic(table, topic).value|) ==>
            !client.verseAvailable(LookupTopic(table, topic).value[i].surah, LookupTopic(table, topic).value[i].verse))
    ensures TopicResponseIn(table, client, topic).Some? ==>
      && var a := TopicResponseIn(table, client, topic).value;
      && var refs := LookupTopic(table, topic).value;
      && a.topic == topic && a.total == |refs| && 0 < |a.entries| <= 10
      && forall e :: e in a.entries ==>
           && e.ref in Take(refs, 10) && client.verseAvailable(e.ref.surah, e.ref.verse)
           && e.para == AppGetParaInfo(e.ref.surah, e.ref.verse)
  {
    var found := LookupTopic(table, topic);
    if found.Some? {
      var first := Take(found.value, 10);
      FilterEmpty(first, Available(client));
      FilterSubset(first, Available(client));
    }
  }

  /** Fasting and mercy are detected as topics but have no verse list, so they fall through. */
  lemma FastingAndMercyHaveNoList(client: Client)
    ensures TopicResponseIn(TopicVerseTable, client, "fasting") == None
    ensures TopicResponseIn(TopicVerseTable, client, "mercy") == None
  {
    assert LookupTopic(TopicVerseTable, "fasting") == None;
    assert LookupTopic(TopicVerseTable, "mercy") == None;
  }

  // ---------------------------------------------------------------- surah tables

  /** One row of the shortest or longest table. */
  datatype SurahRow = SurahRow(num: nat, englishName: string, arabicName: string, verses: nat)

  const ShortSurahNumbers: seq<nat> := [108, 103, 110, 112, 113, 114, 97, 99, 100, 105, 106, 107, 111]
  const LongSurahNumbers: seq<nat> := [2, 3, 4, 5, 6, 7, 9, 10, 11, 12]

  /** The rows for the surahs whose fetch succeeds, in list order. */
  function FetchedRows(client: Client, nums: seq<nat>): (rows: seq<SurahRow>)
    ensures |rows| <= |nums|
    decreases |nums|
  {
    if nums == [] then []
    else
      var init := FetchedRows(client, nums[..|nums| - 1]);
      var n := nums[|nums| - 1];
      match client.getSurah(n)
      case SurahOk(english, arabic, count, _) => init + [SurahRow(n, english, arabic, count)]
      case SurahFailed => init
  }

  /** Every row comes from a listed surah whose fetch succeeded and carries that fetch's data. */
  lemma {:induction false} FetchedRowsFaithful(client: Client, nums: seq<nat>)
    ensures forall r :: r in FetchedRows(client, nums) ==>
      && r.num in nums && client.getSurah(r.num).SurahOk?
      && r.englishName == client.getSurah(r.num).englishName
      && r.arabicName == client.getSurah(r.num).arabicName
      && r.verses == client.getSurah(r.num).versesCount
    decreases |nums|
  {
    if nums != [] {
      FetchedRowsFaithful(client, nums[..|nums| - 1]);
      assert forall x :: x in nums[..|nums| - 1] ==> x in nums;
    }
  }

  /** `a` must come strictly before `b` under the sort key (`reverse=True` when descending). */
  predicate Before(a: SurahRow, b: SurahRow, descending: bool) {
    if descending then a.verses > b.verses else a.verses < b.verses
  }

  predicate SortedRows(rows: seq<SurahRow>, descending: bool) {
    forall i, j :: 0 <= i < j < |rows| ==> !Before(rows[j], rows[i], descending)
  }

  /** Places `x` after the rows that must precede it and before the first that need not. */
  function InsertRow(x: SurahRow, ys: seq<SurahRow>, descending: bool): seq<SurahRow>
    decreases |ys|
  {
    if ys == [] || !Before(ys[0], x, descending) then [x] + ys
    else [ys[0]] + InsertRow(x, ys[1..], descending)
  }

  /** `list.sort(key=lambda x: x['verses'], reverse=descending)`, a stable sort, as an
      insertion sort. */
  function SortRows(rows: seq<SurahRow>, descending: bool): seq<SurahRow>
    decreases |rows|
  {
    if rows == [] then [] else InsertRow(rows[0], SortRows(rows[1..], descending), descending)
  }

  /** Inserting adds exactly the one row. */
  lemma {:induction false} InsertRowPermutes(x: SurahRow, ys: seq<SurahRow>, descending: bool)
    ensures multiset(InsertRow(x, ys, descending)) == multiset(ys) + multiset{x}
    decreases |ys|
  {
    if ys != [] && Before(ys[0], x, descending) {
      InsertRowPermutes(x, ys[1..], descending);
      assert ys == [ys[0]] + ys[1..];
    }
  }

  lemma {:induction false} InsertRowSorted(x: SurahRow, ys: seq<SurahRow>, descending: bool)
    requires SortedRows(ys, descending)
    ensures SortedRows(InsertRow(x, ys, descending), descending)
    decreases |ys|
  {
    if ys != [] && Before(ys[0], x, descending) {
      var rest := InsertRow(x, ys[1..], descending);
      InsertRowSorted(x, ys[1..], descending);
      InsertRowPermutes(x, ys[1..], descending);
      forall j | 0 <= j < |rest|
        ensures !Before(rest[j], ys[0], descending)
      {
        assert rest[j] in multiset(ys[1..]) + multiset{x};
        if rest[j] != x {
          assert rest[j] in ys[1..];
        }
      }
      assert InsertRow(x, ys, descending) == [ys[0]] + rest;
    }
  }

  /** Sorting gives an ordered permutation of the rows. */
  lemma {:induction false} SortRowsSorted(rows: seq<SurahRow>, descending: bool)
    ensures SortedRows(SortRows(rows, descending), descending)
    ensures multiset(SortRows(rows, descending)) == multiset(rows)
    decreases |rows|
  {
    if rows != [] {
      SortRowsSorted(rows[1..], descending);
      InsertRowSorted(rows[0], SortRows(rows[1..], descending), descending);
      InsertRowPermutes(rows[0], SortRows(rows[1..], descending), descending);
      assert rows == [rows[0]] + rows[1..];
    }
  }

  function HasVerses(k: nat): SurahRow -> bool {
    (r: SurahRow) => r.verses == k
  }

  lemma FilterCons<T>(x: T, xs: seq<T>, p: T -> bool)
    ensures Filter([x] + xs, p) == (if p(x) then [x] else []) + Filter(xs, p)
  {
    FilterAppend([x], xs, p);
    FilterSnoc([], x, p);
    assert [] + [x] == [x];
  }

  lemma {:induction false} InsertRowStable(x: SurahRow, ys: seq<SurahRow>, descending: bool, k: nat)
    ensures Filter(InsertRow(x, ys, descending), HasVerses(k)) == Filter([x] + ys, HasVerses(k))
    decreases |ys|
  {
    if ys != [] && Before(ys[0], x, descending) {
      InsertRowStable(x, ys[1..], descending, k);
      FilterCons(ys[0], InsertRow(x, ys[1..], descending), HasVerses(k));
      FilterCons(x, ys[1..], HasVerses(k));
      FilterCons(x, ys, HasVerses(k));
      FilterCons(ys[0], ys[1..], HasVerses(k));
      assert ys == [ys[0]] + ys[1..];
    }
  }

  /** The sort is stable: the rows with any one verse count keep their listed order. */
  lemma {:induction false} SortRowsStable(rows: seq<SurahRow>, descending: bool, k: nat)
    ensures Filter(SortRows(rows, descending), HasVerses(k)) == Filter(rows, HasVerses(k))
    decreases |rows|
  {
    if rows != [] {
      SortRowsStable(rows[1..], descending, k);
      InsertRowStable(rows[0], SortRows(rows[1..], descending), descending, k);
      FilterCons(rows[0], SortRows(rows[1..], descending), HasVerses(k));
      FilterCons(rows[0], rows[1..], HasVerses(k));
      assert rows == [rows[0]] + rows[1..];
    }
  }

  /** The shortest table: the rows printed (at most ten) and the "Top 3" list. */
  function ShortestTable(client: Client): (seq<SurahRow>, seq<SurahRow>) {
    var sorted := SortRows(FetchedRows(client, ShortSurahNumbers), false);
    (Take(sorted, 10), Take(sorted, 3))
  }

  /** The longest table: the rows printed (at most ten). */
  function LongestTable(client: Client): seq<SurahRow> {
    Take(SortRows(FetchedRows(client, LongSurahNumbers), true), 10)
  }

  /** A prefix of an ordered list is ordered. */
  lemma TakeSorted(rows: seq<SurahRow>, n: nat, descending: bool)
    requires SortedRows(rows, descending)
    ensures SortedRows(Take(rows, n), descending)
  {
  }

  /** The shortest table is ordered by ascending verse count, holds at most ten rows of
      listed surahs the client serves, and its "Top 3" are its first three rows. */
  lemma ShortestTableFacts(client: Client)
    ensures var (rows, top3) := ShortestTable(client);
      && |rows| <= 10 && top3 == Take(rows, 3)
      && (forall i, j :: 0 <= i < j < |rows| ==> rows[i].verses <= rows[j].verses)
      && forall r :: r in rows ==> r.num in ShortSurahNumbers && client.getSurah(r.num).SurahOk?
  {
    var fetched := FetchedRows(client, ShortSurahNumbers);
    var sorted := SortRows(fetched, false);
    SortRowsSorted(fetched, false);
    TakeSorted(sorted, 10, false);
    FetchedRowsFaithful(client, ShortSurahNumbers);
    forall r | r in Take(sorted, 10)
      ensures r in fetched
    {
      assert r in multiset(sorted);
    }
  }

  /** The longest table is ordered by descending verse count and holds at most ten rows of
      listed surahs the client serves. */
  lemma LongestTableFacts(client: Client)
    ensures var rows := LongestTable(client);
      && |rows| <= 10
      && (forall i, j :: 0 <= i < j < |rows| ==> rows[i].verses >= rows[j].verses)
      && forall r :: r in rows ==> r.num in LongSurahNumbers && client.getSurah(r.num).SurahOk?
  {
    var fetched := FetchedRows(client, LongSurahNumbers);
    var sorted := SortRows(fetched, true);
    SortRowsSorted(fetched, true);
    TakeSorted(sorted, 10, true);
    FetchedRowsFaithful(client, LongSurahNumbers);
    forall r | r in Take(sorted, 10)
      ensures r in fetched
    {
      assert r in multiset(sorted);
    }
  }

  /** The loop that fetches each listed surah and appends a row when the fetch succeeds. */
  method CollectRows(client: Client, nums: seq<nat>) returns (rows: seq<SurahRow>)
    ensures rows == FetchedRows(client, nums)
  {
    rows := [];
    var i := 0;
    while i < |nums|
      invariant 0 <= i <= |nums|
      invariant rows == FetchedRows(client, nums[..i])
    {
      var num := nums[i];
      assert nums[..i + 1][..i] == nums[..i];
      var surah := client.getSurah(num);
      if surah.SurahOk? {
        rows := rows + [SurahRow(num, surah.englishName, surah.arabicName, surah.versesCount)];
      }
      i := i + 1;
    }
    assert nums[..i] == nums;
  }

  /** `get_shortest_surahs_response`: collect, sort ascending in place, print ten and three. */
  method ShortestSurahsResponse(client: Client) returns (rows: seq<SurahRow>, top3: seq<SurahRow>)
    ensures (rows, top3) == ShortestTable(client)
  {
    var data := CollectRows(client, ShortSurahNumbers);
    data := SortRows(data, false);
    rows := Take(data, 10);
    top3 := Take(data, 3);
  }

  /** `get_longest_surahs_response`: collect, sort descending in place, print ten. */
  method LongestSurahsResponse(client: Client) returns (rows: seq<SurahRow>)
    ensures rows == LongestTable(client)
  {
    var data := CollectRows(client, LongSurahNumbers);
    data := SortRows(data, true);
    rows := Take(data, 10);
  }

  // ---------------------------------------------------------------- replies

  /** The fixed texts of the factual branch and the two tables. */
  datatype Fact =
    | TotalProphets
    | TotalVerses
    | Longest(rows: seq<SurahRow>)
    | Shortest(rows: seq<SurahRow>, top3: seq<SurahRow>)
    | TotalSurahs

  /** A result of the semantic fallback with the para line printed beside it. */
  datatype ShownResult = ShownResult(result: QuranSearchEngine.SearchResult, para: AppParaInfo)

  /** What `ask_question` answers, one alternative per handler. `SearchFailed` stands for the
      exception `search` raises when there is no index or a row has no record. */
  datatype Reply =
    | ProphetInfo(key: string, arabicName: string)
    | ExactVerse(surah: nat, verse: nat)
    | AyatulKursi(para: AppParaInfo)
    | SurahInfo(surah: nat, data: SurahFetch)
    | Factual(fact: Fact)
    | TopicVerses(answer: TopicAnswer)
    | SemanticSearch(shown: seq<ShownResult>)
    | NoResults
    | SearchFailed(error: QuranSearchEngine.SearchError)

  /** The `type` field of the response. */
  function TypeName(r: Reply): string {
    match r
    case ProphetInfo(_, _) => "prophet_info"
    case ExactVerse(_, _) => "exact_verse"
    case AyatulKursi(_) => "special"
    case SurahInfo(_, _) => "surah_info"
    case Factual(_) => "factual"
    case TopicVerses(_) => "topic_verses"
    case SemanticSearch(_) => "semantic_search"
    case NoResults => "no_results"
    case SearchFailed(_) => ""
  }

  // ---------------------------------------------------------------- the cascade

  /** `request.question.strip().strip('"').strip("'")`. */
  function CleanQuestion(question: string): string {
    Strip(Strip(Strip(question, IsSpace), (c: char) => c == '"'), (c: char) => c == '\'')
  }

  /** `any(phrase in lower for phrase in phrases)`. */
  predicate AnyIn(lower: string, phrases: seq<string>) {
    exists i :: 0 <= i < |phrases| && Contains(lower, phrases[i])
  }

  /** What the handler computes from the question before the cascade. */
  datatype Analysis = Analysis(cleaned: string, lower: string, prophet: Option<(string, string)>,
                               surah: nat, verse: Option<nat>)

  function Analyse(question: string): (a: Analysis)
    ensures a.lower == Lower(a.cleaned)
  {
    var cleaned := CleanQuestion(question);
    Analysis(cleaned, Lower(cleaned), DetectProphetName(cleaned),
             DetectSurahNumber(cleaned), ExtractVerseNumber(cleaned))
  }

  /** The words that keep a prophet's name from answering. */
  const SurahMentions: seq<string> := ["surah", "chapter"]
  const KursiPhrases: seq<string> := ["ayat kursi", "ayatul kursi", "throne verse"]
  /** Ayat-ul-Kursi is verse 255 of surah 2. */
  const KursiSurah: nat := 2
  const KursiVerse: nat := 255
  const ProphetCountPhrases: seq<string> := ["total prophet", "how many prophet", "kitne nabi", "prophets in islam"]
  const VerseCountPhrases: seq<string> := ["total verses", "how many verses", "kitni ayaten", "total ayat"]
  const LastSurahPhrases: seq<string> := ["last surah", "akhri surah", "final surah"]
  const FirstSurahPhrases: seq<string> := ["first surah", "pehla surah"]
  const LongestPhrases: seq<string> := ["longest surah", "badi surah", "sabse lambi surah"]
  const ShortestPhrases: seq<string> := ["shortest surah", "choti surah", "smallest surah", "sabse choti surah"]
  const SurahCountPhrases: seq<string> := ["total surah", "how many surah", "kitni surah"]

  /** The number of handlers tried before the semantic fallback. */
  const StageCount: nat := 7

  /** A prophet is named and neither "surah" nor "chapter" occurs. */
  function ProphetStage(a: Analysis): Option<Reply> {
    if a.prophet.Some? && !AnyIn(a.lower, SurahMentions)
    then Some(ProphetInfo(a.prophet.value.0, a.prophet.value.1)) else None
  }

  /** An `X:Y` or `X Y` reference the client serves. */
  function ExactStage(client: Client, a: Analysis): Option<Reply> {
    match ExactReference(a.lower)
    case Some((s, v)) => if client.verseAvailable(s, v) then Some(ExactVerse(s, v)) else None
    case None => None
  }

  /** Ayat-ul-Kursi by name, when the client serves 2:255. */
  function KursiStage(client: Client, a: Analysis): Option<Reply> {
    if AnyIn(a.lower, KursiPhrases) && client.verseAvailable(KursiSurah, KursiVerse)
    then Some(AyatulKursi(AppGetParaInfo(KursiSurah, KursiVerse))) else None
  }

  /** A detected surah and verse the client serves. */
  function SurahVerseStage(client: Client, a: Analysis): Option<Reply> {
    if a.surah > 0 && a.verse.Some? && client.verseAvailable(a.surah, a.verse.value)
    then Some(ExactVerse(a.surah, a.verse.value)) else None
  }

  /** A detected surah the client serves. */
  function SurahStage(client: Client, a: Analysis): Option<Reply> {
    if a.surah > 0 && client.getSurah(a.surah).SurahOk?
    then Some(SurahInfo(a.surah, client.getSurah(a.surah))) else None
  }

  /** The factual phrases, in the handler's order; the last and first surah answer only
      when their fetch succeeds, and fall through to the later phrases otherwise. */
  function FactualStage(client: Client, a: Analysis): Option<Reply> {
    if AnyIn(a.lower, ProphetCountPhrases) then Some(Factual(TotalProphets))
    else if AnyIn(a.lower, VerseCountPhrases) then Some(Factual(TotalVerses))
    else if AnyIn(a.lower, LastSurahPhrases) && client.getSurah(114).SurahOk?
    then Some(SurahInfo(114, client.getSurah(114)))
    else if AnyIn(a.lower, FirstSurahPhrases) && client.getSurah(1).SurahOk?
    then Some(SurahInfo(1, client.getSurah(1)))
    else if AnyIn(a.lower, LongestPhrases) then Some(Factual(Longest(LongestTable(client))))
    else if AnyIn(a.lower, ShortestPhrases)
    then Some(Factual(Shortest(ShortestTable(client).0, ShortestTable(client).1)))
    else if AnyIn(a.lower, SurahCountPhrases) then Some(Factual(TotalSurahs))
    else None
  }

  /** A detected topic with a verse list the client serves. */
  function TopicStage(topics: TopicTables, client: Client, a: Analysis): Option<Reply> {
    match FirstTopicIn(topics.keywords, a.lower)
    case None => None
    case Some(t) =>
      match TopicResponseIn(topics.verses, client, t)
      case None => None
      case Some(answer) => Some(TopicVerses(answer))
  }

  /** What the handlers before the semantic fallback answer, in the order `ask_question`
      tries them. */
  function Stages(topics: TopicTables, client: Client, a: Analysis): (answers: seq<Option<Reply>>)
    ensures |answers| == StageCount
  {
    VerseStages(client, a) + SurahStages(client, a) + LateStages(topics, client, a)
  }

  /** The prophet, exact-reference and Ayat-ul-Kursi handlers. */
  function VerseStages(client: Client, a: Analysis): (answers: seq<Option<Reply>>)
    ensures |answers| == 3
  {
    [ProphetStage(a), ExactStage(client, a), KursiStage(client, a)]
  }

  /** The handlers for a detected surah, with and without a verse. */
  function SurahStages(client: Client, a: Analysis): (answers: seq<Option<Reply>>)
    ensures |answers| == 2
  {
    [SurahVerseStage(client, a), SurahStage(client, a)]
  }

  /** The factual and topic handlers. */
  function LateStages(topics: TopicTables, client: Client, a: Analysis): (answers: seq<Option<Reply>>)
    ensures |answers| == 2
  {
    [FactualStage(client, a), TopicStage(topics, client, a)]
  }

  /** The first answer given, if any. */
  function FirstAnswer(answers: seq<Option<Reply>>): (r: Option<Reply>)
    ensures r.Some? ==> exists m :: 0 <= m < |answers| && answers[m] == r
                                    && forall j :: 0 <= j < m ==> answers[j].None?
    ensures r.None? <==> forall j :: 0 <= j < |answers| ==> answers[j].None?
  {
    match FirstIndex(answers, (o: Option<Reply>) => o.Some?)
    case Some(m) => answers[m]
    case None => None
  }

  /** Once answer `m` is given and none before it, later answers no longer matter. */
  lemma FirstAnswerAt(answers: seq<Option<Reply>>, m: nat)
    requires m < |answers| && answers[m].Some?
    requires forall j :: 0 <= j < m ==> answers[j].None?
    ensures FirstAnswer(answers) == answers[m]
  {
    var r := FirstAnswer(answers);
    var m' :| 0 <= m' < |answers| && answers[m'] == r && forall j :: 0 <= j < m' ==> answers[j].None?;
    assert m' == m;
  }

  /** The first answer of two handlers. */
  lemma FirstAnswerPair(x: Option<Reply>, y: Option<Reply>)
    ensures FirstAnswer([x, y]) == if x.Some? then x else y
  {
    if x.Some? {
      FirstAnswerAt([x, y], 0);
    } else if y.Some? {
      FirstAnswerAt([x, y], 1);
    }
  }

  /** The first answer of three handlers. */
  lemma FirstAnswerTriple(x: Option<Reply>, y: Option<Reply>, z: Option<Reply>)
    ensures FirstAnswer([x, y, z]) == if x.Some? then x else if y.Some? then y else z
  {
    if x.Some? {
      FirstAnswerAt([x, y, z], 0);
    } else if y.Some? {
      FirstAnswerAt([x, y, z], 1);
    } else if z.Some? {
      FirstAnswerAt([x, y, z], 2);
    }
  }

  /** The first answer of two lists in a row: the first list's, if it gives one. */
  lemma FirstAnswerAppend(xs: seq<Option<Reply>>, ys: seq<Option<Reply>>)
    ensures FirstAnswer(xs + ys) == if FirstAnswer(xs).Some? then FirstAnswer(xs) else FirstAnswer(ys)
  {
    var r := FirstAnswer(xs);
    if r.Some? {
      var m :| 0 <= m < |xs| && xs[m] == r && forall j :: 0 <= j < m ==> xs[j].None?;
      FirstAnswerAt(xs + ys, m);
    } else if FirstAnswer(ys).Some? {
      var m :| 0 <= m < |ys| && ys[m] == FirstAnswer(ys) && forall j :: 0 <= j < m ==> ys[j].None?;
      FirstAnswerAt(xs + ys, |xs| + m);
    } else {
      assert forall j :: 0 <= j < |xs + ys| ==> (xs + ys)[j].None? by {
        forall j | 0 <= j < |xs + ys|
          ensures (xs + ys)[j].None?
        {
          if j >= |xs| {
            assert (xs + ys)[j] == ys[j - |xs|];
          }
        }
      }
    }
  }

  /** The reply of the cascade before the semantic fallback, if some handler answers. */
  function Route(topics: TopicTables, client: Client, a: Analysis): Option<Reply> {
    FirstAnswer(Stages(topics, client, a))
  }

  function RouteBeforeSearch(client: Client, question: string): Option<Reply> {
    Route(AppTopics, client, Analyse(question))
  }

  /** A named prophet answers first unless "surah" or "chapter" occurs in the question. */
  lemma ProphetFirst(topics: TopicTables, client: Client, a: Analysis)
    requires a.prophet.Some? && !AnyIn(a.lower, SurahMentions)
    ensures Route(topics, client, a) == Some(ProphetInfo(a.prophet.value.0, a.prophet.value.1))
    ensures TypeName(Route(topics, client, a).value) == "prophet_info"
  {
    FirstAnswerAt(Stages(topics, client, a), 0);
  }

  /** An exact reference the client serves answers unless a prophet answered first. */
  lemma ExactReferenceSecond(topics: TopicTables, client: Client, a: Analysis, s: nat, v: nat)
    requires a.prophet.None? || AnyIn(a.lower, SurahMentions)
    requires ExactReference(a.lower) == Some((s, v))
    requires client.verseAvailable(s, v)
    ensures Route(topics, client, a) == Some(ExactVerse(s, v))
  {
    FirstAnswerAt(Stages(topics, client, a), 1);
  }

  /** Asking for the number of prophets answers with that fact whenever no earlier handler
      answers, whatever the later phrases. */
  lemma ProphetCountBeforeLaterFacts(topics: TopicTables, client: Client, a: Analysis)
    requires forall j :: 0 <= j < 5 ==> Stages(topics, client, a)[j].None?
    requires AnyIn(a.lower, ProphetCountPhrases)
    ensures Route(topics, client, a) == Some(Factual(TotalProphets))
  {
    FirstAnswerAt(Stages(topics, client, a), 5);
  }


  // ---------------------------------------------------------------- semantic fallback

  function NotHaMim(r: QuranSearchEngine.SearchResult): bool {
    !StartsWith(r.verse.arabic, "حم")
  }

  function Shown(rs: seq<QuranSearchEngine.SearchResult>): (shown: seq<ShownResult>)
    ensures |shown| == |rs|
    ensures forall i :: 0 <= i < |rs| ==>
              shown[i] == ShownResult(rs[i], AppGetParaInfo(rs[i].verse.surah, rs[i].verse.ayah))
  {
    seq(|rs|, i requires 0 <= i < |rs| => ShownResult(rs[i], AppGetParaInfo(rs[i].verse.surah, rs[i].verse.ayah)))
  }

  /** The post-filter: an error is passed on; no results, or none left once the results whose
      Arabic text starts with "حم" are dropped, means `no_results`; otherwise the first seven
      kept results are shown. */
  function SemanticReply(outcome: Result<seq<QuranSearchEngine.SearchResult>, QuranSearchEngine.SearchError>): Reply {
    match outcome
    case Failure(e) => SearchFailed(e)
    case Success(results) =>
      if results == [] then NoResults
      else
        var filtered := Filter(results, NotHaMim);
        if filtered == [] then NoResults else SemanticSearch(Shown(Take(filtered, 7)))
  }

  /** At most seven results are shown, each a search result not starting with "حم", in the
      order of the search; `no_results` exactly when every result starts with "حم" (or there
      are none). */
  lemma SemanticReplyFacts(results: seq<QuranSearchEngine.SearchResult>)
    ensures SemanticReply(Success(results)) == NoResults <==>
              forall i :: 0 <= i < |results| ==> !NotHaMim(results[i])
    ensures SemanticReply(Success(results)).SemanticSearch? ==>
      && var shown := SemanticReply(Success(results)).shown;
      && 0 < |shown| <= 7
      && (forall i :: 0 <= i < |shown| ==>
            shown[i].result in results && !StartsWith(shown[i].result.verse.arabic, "حم"))
      && forall i :: 0 <= i < |shown| ==> shown[i].result == Filter(results, NotHaMim)[i]
  {
    FilterEmpty(results, NotHaMim);
    FilterSubset(results, NotHaMim);
  }

  /** An index with at least one row and aligned records never ends in an error, and the
      shown results are top-scored records. */
  lemma SemanticFromAlignedIndex(verses: seq<QuranSearchEngine.VerseRecord>,
                                 embeddings: Option<seq<QuranSearchEngine.Vector>>,
                                 scores: seq<real>, percent: real -> string,
                                 outcome: Result<seq<QuranSearchEngine.SearchResult>, QuranSearchEngine.SearchError>)
    requires QuranSearchEngine.IsSearchOutcome(verses, embeddings, scores, 10, percent, outcome)
    requires embeddings.Some? && |embeddings.value| > 0 && |embeddings.value| == |verses| == |scores|
    ensures outcome.Success? && |outcome.value| == Min(10, |verses|)
    ensures !SemanticReply(outcome).SearchFailed?
    ensures SemanticReply(outcome) == NoResults <==>
              forall i :: 0 <= i < |outcome.value| ==> StartsWith(outcome.value[i].verse.arabic, "حم")
  {
    QuranSearchEngine.AlignedSearchSucceeds(verses, embeddings, scores, 10, percent, outcome);
    QuranSearchEngine.SearchResultCount(verses, embeddings, scores, 10, percent, outcome.value);
    SemanticReplyFacts(outcome.value);
  }

  /** `ask_question`: the question is cleaned and analysed, then answered. `scores` is the
      similarity of the cleaned question to each embedding row. */
  method AskQuestion(engine: QuranSearchEngine.QuranSearchEngine, client: Client, question: string,
                     scores: seq<real>, percent: real -> string)
    returns (reply: Reply)
    requires |scores| == QuranSearchEngine.ScoreCount(engine.embeddings)
    ensures RouteBeforeSearch(client, question).Some? ==> reply == RouteBeforeSearch(client, question).value
    ensures RouteBeforeSearch(client, question).None? ==>
      exists outcome :: QuranSearchEngine.IsSearchOutcome(engine.verses, engine.embeddings, scores, 10, percent, outcome)
                        && reply == SemanticReply(outcome)
  {
    var a := Analyse(question);
    reply := Respond(engine, AppTopics, client, a, scores, percent);
  }

  /** The handlers in order, then `search(cleaned, top_k=10)` and the post-filter. */
  method Respond(engine: QuranSearchEngine.QuranSearchEngine, topics: TopicTables, client: Client, a: Analysis,
                 scores: seq<real>, percent: real -> string)
    returns (reply: Reply)
    requires |scores| == QuranSearchEngine.ScoreCount(engine.embeddings)
    ensures Route(topics, client, a).Some? ==> reply == Route(topics, client, a).value
    ensures Route(topics, client, a).None? ==>
      exists outcome :: QuranSearchEngine.IsSearchOutcome(engine.verses, engine.embeddings, scores, 10, percent, outcome)
                        && reply == SemanticReply(outcome)
  {
    FirstAnswerAppend(VerseStages(client, a) + SurahStages(client, a), LateStages(topics, client, a));
    FirstAnswerAppend(VerseStages(client, a), SurahStages(client, a));
    var early := VerseReply(client, a);
    if early.Some? {
      return early.value;
    }
    early := SurahReply(client, a);
    if early.Some? {
      return early.value;
    }
    FirstAnswerPair(FactualStage(client, a), TopicStage(topics, client, a));
    var factual := FactualReply(client, a);
    if factual.Some? {
      return factual.value;
    }
    var topical := TopicReply(topics, client, a);
    if topical.Some? {
      return topical.value;
    }
    var outcome := engine.Search(scores, 10, percent);
    reply := SemanticReply(outcome);
  }

  /** The prophet, exact-reference and Ayat-ul-Kursi handlers. */
  method VerseReply(client: Client, a: Analysis) returns (early: Option<Reply>)
    ensures early == FirstAnswer(VerseStages(client, a))
  {
    FirstAnswerTriple(ProphetStage(a), ExactStage(client, a), KursiStage(client, a));
    if a.prophet.Some? && !AnyIn(a.lower, SurahMentions) {
      return Some(ProphetInfo(a.prophet.value.0, a.prophet.value.1));
    }
    early := ExactReply(client, a);
    if early.None? {
      early := KursiReply(client, a);
    }
  }

  /** An exact reference the client serves. */
  method ExactReply(client: Client, a: Analysis) returns (exact: Option<Reply>)
    ensures exact == ExactStage(client, a)
  {
    var reference := ExactReference(a.lower);
    if reference.Some? {
      var (s, v) := reference.value;
      if client.verseAvailable(s, v) {
        return Some(ExactVerse(s, v));
      }
    }
    return None;
  }

  /** Ayat-ul-Kursi by name, fetched as 2:255. */
  method KursiReply(client: Client, a: Analysis) returns (kursi: Option<Reply>)
    ensures kursi == KursiStage(client, a)
  {
    if AnyIn(a.lower, KursiPhrases) && client.verseAvailable(KursiSurah, KursiVerse) {
      return Some(AyatulKursi(AppGetParaInfo(KursiSurah, KursiVerse)));
    }
    return None;
  }

  /** The surah-and-verse and surah handlers. */
  method SurahReply(client: Client, a: Analysis) returns (early: Option<Reply>)
    ensures early == FirstAnswer(SurahStages(client, a))
  {
    FirstAnswerPair(SurahVerseStage(client, a), SurahStage(client, a));
    if a.surah > 0 && a.verse.Some? && client.verseAvailable(a.surah, a.verse.value) {
      return Some(ExactVerse(a.surah, a.verse.value));
    }
    if a.surah > 0 {
      var data := client.getSurah(a.surah);
      if data.SurahOk? {
        return Some(SurahInfo(a.surah, data));
      }
    }
    return None;
  }

  /** The topic loop and, for a detected topic, its verse list. */
  method TopicReply(topics: TopicTables, client: Client, a: Analysis) returns (topical: Option<Reply>)
    ensures topical == TopicStage(topics, client, a)
  {
    var detected := DetectTopic(topics.keywords, a.lower);
    if detected.Some? {
      var answer := TopicVersesResponse(topics.verses, client, detected.value);
      if answer.Some? {
        return Some(TopicVerses(answer.value));
      }
    }
    return None;
  }

  /** The factual handlers, with the two tables computed by their methods. */
  method FactualReply(client: Client, a: Analysis) returns (fact: Option<Reply>)
    ensures fact == FactualStage(client, a)
  {
    if AnyIn(a.lower, ProphetCountPhrases) {
      return Some(Factual(TotalProphets));
    }
    if AnyIn(a.lower, VerseCountPhrases) {
      return Some(Factual(TotalVerses));
    }
    if AnyIn(a.lower, LastSurahPhrases) {
      var data := client.getSurah(114);
      if data.SurahOk? {
        return Some(SurahInfo(114, data));
      }
    }
    if AnyIn(a.lower, FirstSurahPhrases) {
      var data := client.getSurah(1);
      if data.SurahOk? {
        return Some(SurahInfo(1, data));
      }
    }
    if AnyIn(a.lower, LongestPhrases) {
      var rows := LongestSurahsResponse(client);
      return Some(Factual(Longest(rows)));
    }
    if AnyIn(a.lower, ShortestPhrases) {
      var rows, top3 := ShortestSurahsResponse(client);
      return Some(Factual(Shortest(rows, top3)));
    }
    if AnyIn(a.lower, SurahCountPhrases) {
      return Some(Factual(TotalSurahs));
    }
    return None;
  }

  // ---------------------------------------------------------------- startup

  /** Module start: load the index file when it exists (whatever the load reports), and
      otherwise build the index and save it. */
  method StartUp(engine: QuranSearchEngine.QuranSearchEngine, file: QuranSearchEngine.ArtifactFile,
                 client: Client, embed: string -> QuranSearchEngine.Vector)
    modifies engine, file
    ensures old(file.content) != QuranSearchEngine.Missing ==> file.content == old(file.content)
    ensures old(file.content).Archive? ==> engine.embeddings == Some(old(file.content).embeddings)
    ensures old(file.content).Archive? && old(file.content).verses.Parsed? ==>
              engine.verses == old(file.content).verses.records
    ensures old(file.content).Archive? && old(file.content).verses.Unparseable? ==>
              engine.verses == old(engine.verses)
    ensures old(file.content) == QuranSearchEngine.Unreadable ==>
              engine.verses == old(engine.verses) && engine.embeddings == old(engine.embeddings)
    ensures old(file.content) == QuranSearchEngine.Missing ==>
              && engine.verses == QuranSearchEngine.Corpus(client)
              && engine.Aligned()
              && engine.embeddings == Some(QuranSearchEngine.EncodeAll(embed, QuranSearchEngine.SearchTexts(engine.verses)))
              && file.content == QuranSearchEngine.Archive(engine.embeddings.value, QuranSearchEngine.Parsed(engine.verses))
  {
    if file.content != QuranSearchEngine.Missing {
      var _ := engine.LoadEmbeddings(file);
    } else {
      engine.BuildDatabase(client, embed);
      var _ := engine.SaveEmbeddings(file);
    }
  }
}
