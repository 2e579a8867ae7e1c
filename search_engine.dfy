/** quran_search_engine.py: the verse index. `build_database` turns every successfully fetched
    surah into verse records and embeds their search texts, `search` ranks the records by a
    given similarity score, and `save_embeddings` / `load_embeddings` move the pair through a
    file. The sentence encoder and cosine similarity are parameters: an embedding function
    from text to vector, and the sequence of scores of the question against each row. */
module QuranSearchEngine {
  import opened Wrappers
  import opened Seqs
  import opened Text
  import opened QuranSource

  type Vector = seq<real>

  /** One entry of `self.verses`. */
  datatype VerseRecord = VerseRecord(
    surah: nat, ayah: nat, arabic: string, english: string, urdu: string,
    searchText: string, reference: string)

  /** The reference `"{surah}:{number}"`. */
  function Reference(surah: nat, number: nat): string {
    NatToString(surah) + ":" + NatToString(number)
  }

  /** Reads a reference back: digits, one colon, digits. */
  function ParseReference(reference: string): Option<(nat, nat)> {
    match FirstIndex(reference, (c: char) => c == ':')
    case None => None
    case Some(i) =>
      if IsDigits(reference[..i]) && IsDigits(reference[i + 1..])
      then Some((DigitsValue(reference[..i]), DigitsValue(reference[i + 1..])))
      else None
  }

  /** References are unambiguous: each one reads back as the surah and verse it was built from. */
  lemma ReferenceRoundTrip(surah: nat, number: nat)
    ensures ParseReference(Reference(surah, number)) == Some((surah, number))
  {
    var a, b := NatToString(surah), NatToString(number);
    NatToStringRoundTrip(surah);
    NatToStringRoundTrip(number);
    var r := a + ":" + b;
    var colon := (c: char) => c == ':';
    assert r[|a|] == ':';
    assert forall j :: 0 <= j < |a| ==> r[j] == a[j] && IsDigit(a[j]);
    var i := FirstIndex(r, colon);
    assert i == Some(|a|);
    assert r[..|a|] == a && r[|a| + 1..] == b;
  }

  /** Distinct (surah, verse) pairs never share a reference. */
  lemma ReferenceInjective(s1: nat, n1: nat, s2: nat, n2: nat)
    requires Reference(s1, n1) == Reference(s2, n2)
    ensures s1 == s2 && n1 == n2
  {
    ReferenceRoundTrip(s1, n1);
    ReferenceRoundTrip(s2, n2);
  }

  /** The searchable text `f"{arabic} {english} {urdu}"`, with `urdu` defaulting to "". */
  function SearchText(v: SourceVerse): string {
    v.arabic + " " + v.english + " " + v.urdu.GetOr("")
  }

  /** The record appended for verse `v` of surah `surah`. */
  function MakeRecord(surah: nat, v: SourceVerse): VerseRecord {
    VerseRecord(surah, v.number, v.arabic, v.english, v.urdu.GetOr(""), SearchText(v),
                Reference(surah, v.number))
  }

  /** A record keeps the loop's surah and the verse's number, Arabic and English; the Urdu
      defaults to "", and the search text joins the three texts with spaces. */
  lemma RecordFields(surah: nat, v: SourceVerse)
    ensures MakeRecord(surah, v).surah == surah && MakeRecord(surah, v).ayah == v.number
    ensures MakeRecord(surah, v).arabic == v.arabic && MakeRecord(surah, v).english == v.english
    ensures v.urdu.None? ==> MakeRecord(surah, v).urdu == ""
    ensures v.urdu.Some? ==> MakeRecord(surah, v).urdu == v.urdu.value
    ensures MakeRecord(surah, v).searchText
         == MakeRecord(surah, v).arabic + " " + MakeRecord(surah, v).english + " " + MakeRecord(surah, v).urdu
  {
  }

  /** A record's reference reads back as the record's own surah and ayah. */
  lemma RecordReference(surah: nat, v: SourceVerse)
    ensures ParseReference(MakeRecord(surah, v).reference) == Some((surah, v.number))
  {
    ReferenceRoundTrip(surah, v.number);
  }

  /** The records of one fetched surah, in the source's verse order. */
  function RecordsOf(surah: nat, vs: seq<SourceVerse>): (r: seq<VerseRecord>)
    ensures |r| == |vs|
    decreases |vs|
  {
    if vs == [] then [] else RecordsOf(surah, vs[..|vs| - 1]) + [MakeRecord(surah, vs[|vs| - 1])]
  }

  /** Record i of a surah is built from its verse i: one record per verse, in the source's
      order. */
  lemma {:induction false} RecordsOfAt(surah: nat, vs: seq<SourceVerse>, i: nat)
    requires i < |vs|
    ensures RecordsOf(surah, vs)[i] == MakeRecord(surah, vs[i])
    decreases |vs|
  {
    if i < |vs| - 1 {
      RecordsOfAt(surah, vs[..|vs| - 1], i);
    }
  }

  /** The records of one more verse. */
  lemma RecordsOfSnoc(surah: nat, vs: seq<SourceVerse>, j: nat)
    requires j < |vs|
    ensures RecordsOf(surah, vs[..j + 1]) == RecordsOf(surah, vs[..j]) + [MakeRecord(surah, vs[j])]
  {
    assert vs[..j + 1][..j] == vs[..j];
  }

  /** The records surah `surah` contributes: none when its fetch reports failure. */
  function SurahRecords(client: Client, surah: nat): seq<VerseRecord> {
    match client.getSurah(surah)
    case SurahOk(_, _, _, vs) => RecordsOf(surah, vs)
    case SurahFailed => []
  }

  /** The records of surahs 1..n, in that order. */
  function CorpusUpTo(client: Client, n: nat): seq<VerseRecord>
    decreases n
  {
    if n == 0 then [] else CorpusUpTo(client, n - 1) + SurahRecords(client, n)
  }

  /** The number of surahs `build_database` walks through. */
  const SurahCount: nat := 114

  /** The whole list `build_database` assembles. */
  function Corpus(client: Client): seq<VerseRecord> {
    CorpusUpTo(client, SurahCount)
  }

  /** Records are grouped by surah in ascending order. */
  ghost predicate SortedBySurah(rs: seq<VerseRecord>) {
    forall i, j :: 0 <= i < j < |rs| ==> rs[i].surah <= rs[j].surah
  }

  /** Every record belongs to a surah in 1..n whose fetch succeeded. */
  ghost predicate FetchedWithin(client: Client, rs: seq<VerseRecord>, n: nat) {
    forall i :: 0 <= i < |rs| ==> 1 <= rs[i].surah <= n && client.getSurah(rs[i].surah).SurahOk?
  }

  /** Every record a surah contributes carries that surah's number, and there are some only
      when its fetch succeeded. */
  lemma SurahRecordsOwn(client: Client, s: nat)
    ensures forall i :: 0 <= i < |SurahRecords(client, s)| ==> SurahRecords(client, s)[i].surah == s
    ensures SurahRecords(client, s) != [] ==> client.getSurah(s).SurahOk?
  {
    if client.getSurah(s).SurahOk? {
      var vs := client.getSurah(s).verses;
      forall i | 0 <= i < |vs| ensures RecordsOf(s, vs)[i].surah == s {
        RecordsOfAt(s, vs, i);
      }
    }
  }

  /** The records of surahs 1..n are ordered by surah and come from fetched surahs in 1..n. */
  lemma {:induction false} CorpusUpToOrdered(client: Client, n: nat)
    ensures SortedBySurah(CorpusUpTo(client, n))
    ensures FetchedWithin(client, CorpusUpTo(client, n), n)
  {
    if n > 0 {
      CorpusUpToOrdered(client, n - 1);
      SurahRecordsOwn(client, n);
      var prev, last := CorpusUpTo(client, n - 1), SurahRecords(client, n);
      var all := prev + last;
      assert CorpusUpTo(client, n) == all;
      assert forall i :: 0 <= i < |all| ==> all[i] == if i < |prev| then prev[i] else last[i - |prev|];
      assert forall i :: 0 <= i < |all| ==> (i < |prev| ==> all[i].surah <= n - 1) && (i >= |prev| ==> all[i].surah == n);
    }
  }

  /** The test "belongs to surah s". */
  function OfSurah(s: nat): VerseRecord -> bool {
    (r: VerseRecord) => r.surah == s
  }

  /** Filtering one surah's contribution by surah s keeps all of it or none of it. */
  lemma SurahRecordsFilter(client: Client, n: nat, s: nat)
    ensures Filter(SurahRecords(client, n), OfSurah(s)) == if n == s then SurahRecords(client, n) else []
  {
    var last := SurahRecords(client, n);
    SurahRecordsOwn(client, n);
    if n == s {
      FilterAll(last, OfSurah(s));
    } else {
      FilterEmpty(last, OfSurah(s));
    }
  }

  /** The records of surah s among those of surahs 1..n are exactly what s contributes. */
  lemma {:induction false} CorpusUpToSurah(client: Client, n: nat, s: nat)
    ensures Filter(CorpusUpTo(client, n), OfSurah(s))
         == if 1 <= s <= n then SurahRecords(client, s) else []
  {
    if n > 0 {
      var prev, last := CorpusUpTo(client, n - 1), SurahRecords(client, n);
      assert CorpusUpTo(client, n) == prev + last;
      CorpusUpToSurah(client, n - 1, s);
      SurahRecordsFilter(client, n, s);
      var before: seq<VerseRecord> := if 1 <= s <= n - 1 then SurahRecords(client, s) else [];
      var here: seq<VerseRecord> := if n == s then last else [];
      FilterJoin(prev, last, OfSurah(s), before, here);
      assert before + here == if 1 <= s <= n then SurahRecords(client, s) else [];
    }
  }

  /** The whole corpus: ordered by surah, and for each surah s in 1..114 the records of s are
      those built from its fetched verses, in their order (none when the fetch failed). */
  lemma CorpusBySurah(client: Client, s: nat)
    requires 1 <= s <= SurahCount
    ensures Filter(Corpus(client), OfSurah(s)) == SurahRecords(client, s)
    ensures SortedBySurah(Corpus(client))
    ensures FetchedWithin(client, Corpus(client), SurahCount)
  {
    CorpusUpToSurah(client, SurahCount, s);
    CorpusUpToOrdered(client, SurahCount);
  }

  /** The list comprehension `[v['search_text'] for v in self.verses]`. */
  function SearchTexts(records: seq<VerseRecord>): (texts: seq<string>)
    ensures |texts| == |records|
    ensures forall i :: 0 <= i < |records| ==> texts[i] == records[i].searchText
  {
    seq(|records|, i requires 0 <= i < |records| => records[i].searchText)
  }

  /** `model.encode(texts)`: one row per text, in order. */
  function EncodeAll(embed: string -> Vector, texts: seq<string>): (rows: seq<Vector>)
    ensures |rows| == |texts|
    ensures forall i :: 0 <= i < |texts| ==> rows[i] == embed(texts[i])
  {
    seq(|texts|, i requires 0 <= i < |texts| => embed(texts[i]))
  }

  /** One element of the list `search` returns: the stored record, its score and the score
      formatted as a percentage. */
  datatype SearchResult = SearchResult(verse: VerseRecord, similarityScore: real, confidencePercent: string)

  /** The exceptions `search` can raise: no index to compare against (embeddings `None` or
      with no rows), or a ranked row with no record behind it (`self.verses[idx]`). */
  datatype SearchError = NoIndex | IndexOutOfRange

  /** The start of the Python slice `xs[-k:]` on a list of length n. */
  function TailStart(n: nat, k: int): (start: nat)
    ensures start <= n
  {
    var s := -k;
    if s < 0 then Max(0, s + n) else Min(s, n)
  }

  /** How many elements `xs[-k:]` keeps. */
  function ResultCount(n: nat, k: int): nat {
    n - TailStart(n, k)
  }

  /** The count rule: `min(k, n)` for k >= 1, everything for k == 0 (the `[-0:]` slice), and
      all but the first -k for negative k. */
  lemma ResultCountCases(n: nat, k: int)
    ensures k >= 1 ==> ResultCount(n, k) == Min(k, n)
    ensures k == 0 ==> ResultCount(n, k) == n
    ensures k < 0 ==> ResultCount(n, k) == Max(0, n + k)
  {
  }

  /** `order` lists every index of `scores` once, by ascending score (what `np.argsort`
      promises; nothing about the order of equal scores). */
  ghost predicate IsAscendingArgSort(scores: seq<real>, order: seq<nat>) {
    && |order| == |scores|
    && (forall i :: 0 <= i < |order| ==> order[i] < |scores|)
    && (forall i, j :: 0 <= i < j < |order| ==> order[i] != order[j])
    && (forall j :: 0 <= j < |scores| ==> j in order)
    && (forall i, j :: 0 <= i < j < |order| ==> scores[order[i]] <= scores[order[j]])
  }

  /** `idx` is a valid top-`count` ranking of `scores`: distinct in-range indices, by
      non-increasing score, and no index left out scores above one taken. */
  ghost predicate IsTopSelection(scores: seq<real>, count: nat, idx: seq<nat>) {
    && |idx| == count
    && (forall i :: 0 <= i < |idx| ==> idx[i] < |scores|)
    && (forall i, j :: 0 <= i < j < |idx| ==> idx[i] != idx[j])
    && (forall i, j :: 0 <= i < j < |idx| ==> scores[idx[i]] >= scores[idx[j]])
    && (forall j, i :: 0 <= j < |scores| && j !in idx && 0 <= i < |idx| ==> scores[j] <= scores[idx[i]])
  }

  /** The state of the arg-sort loop after i indices: `order` holds 0..i-1 once each, by
      ascending score. */
  ghost predicate SortedPrefix(scores: seq<real>, order: seq<nat>, i: nat) {
    && i <= |scores|
    && |order| == i
    && (forall k :: 0 <= k < |order| ==> order[k] < i)
    && (forall a, b :: 0 <= a < b < |order| ==> order[a] != order[b])
    && (forall j :: 0 <= j < i ==> j in order)
    && (forall a, b :: 0 <= a < b < |order| ==> scores[order[a]] <= scores[order[b]])
  }

  /** The elements of `order` with `x` inserted at position j. */
  lemma InsertedAt(order: seq<nat>, x: nat, j: nat)
    requires j <= |order|
    ensures |order[..j] + [x] + order[j..]| == |order| + 1
    ensures forall k :: 0 <= k < |order| + 1 ==>
              (order[..j] + [x] + order[j..])[k] == if k < j then order[k] else if k == j then x else order[k - 1]
  {
  }

  /** Inserting x after the run of scores no larger than its own keeps the scores ascending. */
  lemma InsertKeepsAscending(scores: seq<real>, order: seq<nat>, x: nat, j: nat)
    requires x < |scores| && j <= |order|
    requires forall k :: 0 <= k < |order| ==> order[k] < |scores|
    requires forall a, b :: 0 <= a < b < |order| ==> scores[order[a]] <= scores[order[b]]
    requires forall k :: 0 <= k < j ==> scores[order[k]] <= scores[x]
    requires j < |order| ==> scores[x] < scores[order[j]]
    ensures forall a, b :: 0 <= a < b < |order| + 1 ==>
              scores[(order[..j] + [x] + order[j..])[a]] <= scores[(order[..j] + [x] + order[j..])[b]]
  {
    var next := order[..j] + [x] + order[j..];
    InsertedAt(order, x, j);
    forall k | j <= k < |order| ensures scores[x] < scores[order[k]] {
      if k > j {
        assert scores[order[j]] <= scores[order[k]];
      }
    }
  }

  /** Inserting the new index i into a permutation of 0..i-1 gives a permutation of 0..i. */
  lemma InsertKeepsPermutation(order: seq<nat>, i: nat, j: nat)
    requires j <= |order| && |order| == i
    requires forall k :: 0 <= k < |order| ==> order[k] < i
    requires forall a, b :: 0 <= a < b < |order| ==> order[a] != order[b]
    requires forall x :: 0 <= x < i ==> x in order
    ensures forall k :: 0 <= k < i + 1 ==> (order[..j] + [i] + order[j..])[k] < i + 1
    ensures forall a, b :: 0 <= a < b < i + 1 ==> (order[..j] + [i] + order[j..])[a] != (order[..j] + [i] + order[j..])[b]
    ensures forall x :: 0 <= x < i + 1 ==> x in order[..j] + [i] + order[j..]
  {
    var next := order[..j] + [i] + order[j..];
    InsertedAt(order, i, j);
    forall x | 0 <= x < i + 1 ensures x in next {
      if x < i {
        assert x in order;
        var p :| 0 <= p < |order| && order[p] == x;
        assert next[if p < j then p else p + 1] == x;
      } else {
        assert next[j] == x;
      }
    }
  }

  /** Inserting index i after the run of scores no larger than its own keeps the loop state. */
  lemma InsertStep(scores: seq<real>, order: seq<nat>, i: nat, j: nat)
    requires SortedPrefix(scores, order, i) && i < |scores|
    requires j <= |order|
    requires forall k :: 0 <= k < j ==> scores[order[k]] <= scores[i]
    requires j < |order| ==> scores[i] < scores[order[j]]
    ensures SortedPrefix(scores, order[..j] + [i] + order[j..], i + 1)
  {
    InsertKeepsAscending(scores, order, i, j);
    InsertKeepsPermutation(order, i, j);
  }

  /** `np.argsort`: an insertion sort, placing each index after all earlier ones with a score
      no larger. */
  method ArgSort(scores: seq<real>) returns (order: seq<nat>)
    ensures IsAscendingArgSort(scores, order)
  {
    order := [];
    var i := 0;
    while i < |scores|
      invariant SortedPrefix(scores, order, i)
    {
      var j := 0;
      while j < |order| && scores[order[j]] <= scores[i]
        invariant 0 <= j <= |order|
        invariant forall k :: 0 <= k < j ==> scores[order[k]] <= scores[i]
      {
        j := j + 1;
      }
      InsertStep(scores, order, i, j);
      order := order[..j] + [i] + order[j..];
      i := i + 1;
    }
  }

  /** Reversing the tail from `start` of an ascending arg-sort is a top selection of its size. */
  lemma ReversedTailIsTopSelection(scores: seq<real>, order: seq<nat>, start: nat)
    requires IsAscendingArgSort(scores, order)
    requires start <= |order|
    ensures IsTopSelection(scores, |order| - start, Reverse(order[start..]))
  {
    var tail := order[start..];
    var top := Reverse(tail);
    var m := |tail|;
    assert forall i :: 0 <= i < m ==> top[i] == order[|order| - 1 - i];
    forall q | start <= q < |order| ensures order[q] in top {
      assert top[|order| - 1 - q] == order[q];
    }
    forall j, i | 0 <= j < |scores| && j !in top && 0 <= i < m
      ensures scores[j] <= scores[top[i]]
    {
      assert j in order;
      var p :| 0 <= p < |order| && order[p] == j;
      assert p < start;
    }
  }

  /** The results for the ranked indices `idx`, in that order. */
  function Materialize(verses: seq<VerseRecord>, scores: seq<real>, idx: seq<nat>, percent: real -> string): (rs: seq<SearchResult>)
    requires forall i :: 0 <= i < |idx| ==> idx[i] < |verses| && idx[i] < |scores|
    ensures |rs| == |idx|
    ensures forall i :: 0 <= i < |idx| ==>
      rs[i] == SearchResult(verses[idx[i]], scores[idx[i]], percent(scores[idx[i]]))
  {
    seq(|idx|, i requires 0 <= i < |idx| => SearchResult(verses[idx[i]], scores[idx[i]], percent(scores[idx[i]])))
  }

  /** The results for one more ranked index. */
  lemma MaterializeSnoc(verses: seq<VerseRecord>, scores: seq<real>, idx: seq<nat>, m: nat, percent: real -> string)
    requires m < |idx|
    requires forall i :: 0 <= i <= m ==> idx[i] < |verses| && idx[i] < |scores|
    ensures Materialize(verses, scores, idx[..m + 1], percent)
         == Materialize(verses, scores, idx[..m], percent)
            + [SearchResult(verses[idx[m]], scores[idx[m]], percent(scores[idx[m]]))]
  {
  }

  /** How many similarity scores `cosine_similarity` yields: one per embedding row, and one
      when no index was ever set, since a missing second argument makes it compare the
      question with itself. */
  function ScoreCount(embeddings: Option<seq<Vector>>): nat {
    match embeddings
    case Some(rows) => |rows|
    case None => 1
  }

  /** What `search` may return: the error for an index with zero rows; otherwise, for some top
      selection of the size the slice rule gives, the stored records with their own scores,
      or the index error when a selected row has no record. */
  ghost predicate IsSearchOutcome(verses: seq<VerseRecord>, embeddings: Option<seq<Vector>>,
                                  scores: seq<real>, topK: int, percent: real -> string,
                                  outcome: Result<seq<SearchResult>, SearchError>)
  {
    if embeddings.Some? && |embeddings.value| == 0 then outcome == Failure(NoIndex)
    else exists idx ::
      && IsTopSelection(scores, ResultCount(|scores|, topK), idx)
      && if forall i :: 0 <= i < |idx| ==> idx[i] < |verses|
         then outcome == Success(Materialize(verses, scores, idx, percent))
         else outcome == Failure(IndexOutOfRange)
  }

  /** The ranking behind a successful search. */
  lemma SuccessSelection(verses: seq<VerseRecord>, embeddings: Option<seq<Vector>>,
                         scores: seq<real>, topK: int, percent: real -> string,
                         rs: seq<SearchResult>) returns (idx: seq<nat>)
    requires IsSearchOutcome(verses, embeddings, scores, topK, percent, Success(rs))
    ensures IsTopSelection(scores, ResultCount(|scores|, topK), idx)
    ensures forall i :: 0 <= i < |idx| ==> idx[i] < |verses|
    ensures rs == Materialize(verses, scores, idx, percent)
  {
    var outcome: Result<seq<SearchResult>, SearchError> := Success(rs);
    idx :| IsTopSelection(scores, ResultCount(|scores|, topK), idx)
      && if forall i :: 0 <= i < |idx| ==> idx[i] < |verses|
         then outcome == Success(Materialize(verses, scores, idx, percent))
         else outcome == Failure(IndexOutOfRange);
  }

  /** With at least one row and one record per score, every selected row has a record, so
      the search succeeds. */
  /** `argsort(similarities)[-top_k:][::-1]`: the rows of the `top_k` highest scores, best
      first, as many as the slice rule keeps. */
  method TopRows(scores: seq<real>, topK: int) returns (top: seq<nat>)
    ensures IsTopSelection(scores, ResultCount(|scores|, topK), top)
  {
    var order := ArgSort(scores);
    var start := TailStart(|scores|, topK);
    top := Reverse(order[start..]);
    ReversedTailIsTopSelection(scores, order, start);
  }

  /** `self.verses[idx]` for each selected row, in order, with that row's score; the index
      error at the first row without a record. */
  method LookUp(verses: seq<VerseRecord>, scores: seq<real>, top: seq<nat>, percent: real -> string)
    returns (outcome: Result<seq<SearchResult>, SearchError>)
    requires forall i :: 0 <= i < |top| ==> top[i] < |scores|
    ensures outcome == if forall i :: 0 <= i < |top| ==> top[i] < |verses|
                       then Success(Materialize(verses, scores, top, percent))
                       else Failure(IndexOutOfRange)
  {
    var results: seq<SearchResult> := [];
    var m := 0;
    while m < |top|
      invariant 0 <= m <= |top|
      invariant forall t :: 0 <= t < m ==> top[t] < |verses|
      invariant results == Materialize(verses, scores, top[..m], percent)
    {
      var idx := top[m];
      if idx >= |verses| {
        assert !(forall t :: 0 <= t < |top| ==> top[t] < |verses|);
        return Failure(IndexOutOfRange);
      }
      MaterializeSnoc(verses, scores, top, m, percent);
      results := results + [SearchResult(verses[idx], scores[idx], percent(scores[idx]))];
      m := m + 1;
    }
    assert top[..m] == top;
    outcome := Success(results);
  }

  /** A top selection of the right size, looked up in the records, is an outcome of `search`. */
  lemma SelectionOutcome(verses: seq<VerseRecord>, embeddings: Option<seq<Vector>>,
                         scores: seq<real>, topK: int, percent: real -> string, idx: seq<nat>,
                         outcome: Result<seq<SearchResult>, SearchError>)
    requires !(embeddings.Some? && |embeddings.value| == 0)
    requires IsTopSelection(scores, ResultCount(|scores|, topK), idx)
    requires outcome == if forall i :: 0 <= i < |idx| ==> idx[i] < |verses|
                        then Success(Materialize(verses, scores, idx, percent))
                        else Failure(IndexOutOfRange)
    ensures IsSearchOutcome(verses, embeddings, scores, topK, percent, outcome)
  {
  }

  /** An engine that was never built, or whose startup load failed, has no records and no
      index. The one self-similarity score is then selected by any non-negative `top_k`, and
      looking it up fails; a negative `top_k` keeps no rows and finds nothing. */
  lemma UnbuiltSearch(scores: seq<real>, topK: int, percent: real -> string,
                      outcome: Result<seq<SearchResult>, SearchError>)
    requires |scores| == ScoreCount(None)
    requires IsSearchOutcome([], None, scores, topK, percent, outcome)
    ensures topK >= 0 ==> outcome == Failure(IndexOutOfRange)
    ensures topK < 0 ==> outcome == Success([])
  {
    var idx :| && IsTopSelection(scores, ResultCount(|scores|, topK), idx)
               && if forall i :: 0 <= i < |idx| ==> idx[i] < 0
                  then outcome == Success(Materialize([], scores, idx, percent))
                  else outcome == Failure(IndexOutOfRange);
    if topK >= 0 {
      assert |idx| == 1;
      assert !(idx[0] < 0);
    } else {
      assert idx == [];
    }
  }

  lemma AlignedSearchSucceeds(verses: seq<VerseRecord>, embeddings: Option<seq<Vector>>,
                              scores: seq<real>, topK: int, percent: real -> string,
                              outcome: Result<seq<SearchResult>, SearchError>)
    requires IsSearchOutcome(verses, embeddings, scores, topK, percent, outcome)
    requires embeddings.Some? && |embeddings.value| > 0 && |scores| == |verses|
    ensures outcome.Success?
  {
    var idx :| && IsTopSelection(scores, ResultCount(|scores|, topK), idx)
               && if forall i :: 0 <= i < |idx| ==> idx[i] < |verses|
                  then outcome == Success(Materialize(verses, scores, idx, percent))
                  else outcome == Failure(IndexOutOfRange);
    assert forall i :: 0 <= i < |idx| ==> idx[i] < |verses|;
  }

  /** A record not returned scores no higher than any record returned. */
  lemma MaterializedNoneAbove(verses: seq<VerseRecord>, scores: seq<real>, count: nat, idx: seq<nat>,
                              percent: real -> string)
    requires IsTopSelection(scores, count, idx)
    requires forall i :: 0 <= i < |idx| ==> idx[i] < |verses|
    ensures forall k, i :: 0 <= k < |verses| && k < |scores| && verses[k] !in SeqVerses(Materialize(verses, scores, idx, percent))
                           && 0 <= i < |idx| ==>
              scores[k] <= Materialize(verses, scores, idx, percent)[i].similarityScore
  {
    var rs := Materialize(verses, scores, idx, percent);
    forall k, i | 0 <= k < |verses| && k < |scores| && verses[k] !in SeqVerses(rs) && 0 <= i < |idx|
      ensures scores[k] <= rs[i].similarityScore
    {
      assert forall p :: 0 <= p < |idx| ==> SeqVerses(rs)[p] == verses[idx[p]];
      assert k !in idx;
    }
  }

  /** A successful search returns as many results as the slice `[-top_k:]` keeps. */
  lemma SearchResultCount(verses: seq<VerseRecord>, embeddings: Option<seq<Vector>>,
                          scores: seq<real>, topK: int, percent: real -> string,
                          rs: seq<SearchResult>)
    requires IsSearchOutcome(verses, embeddings, scores, topK, percent, Success(rs))
    ensures |rs| == ResultCount(|scores|, topK)
    ensures topK >= 1 ==> |rs| == Min(topK, |scores|)
    ensures topK == 0 ==> |rs| == |scores|
  {
    ResultCountCases(|scores|, topK);
    var idx := SuccessSelection(verses, embeddings, scores, topK, percent, rs);
  }

  /** What a successful search promises its caller: the slice rule's count, non-increasing
      scores, each result a stored record with its own score, and no record left out scoring
      above one returned. */
  lemma SearchSuccessFacts(verses: seq<VerseRecord>, embeddings: Option<seq<Vector>>,
                           scores: seq<real>, topK: int, percent: real -> string,
                           rs: seq<SearchResult>)
    requires IsSearchOutcome(verses, embeddings, scores, topK, percent, Success(rs))
    ensures |rs| == ResultCount(|scores|, topK)
    ensures topK >= 1 ==> |rs| == Min(topK, |scores|)
    ensures topK == 0 ==> |rs| == |scores|
    ensures forall i, j :: 0 <= i < j < |rs| ==> rs[i].similarityScore >= rs[j].similarityScore
    ensures forall i :: 0 <= i < |rs| ==> exists k ::
              && 0 <= k < |verses| && k < |scores|
              && rs[i].verse == verses[k] && rs[i].similarityScore == scores[k]
              && rs[i].confidencePercent == percent(scores[k])
    ensures forall k, i :: 0 <= k < |verses| && k < |scores| && verses[k] !in SeqVerses(rs) && 0 <= i < |rs| ==>
              scores[k] <= rs[i].similarityScore
  {
    ResultCountCases(|scores|, topK);
    var idx := SuccessSelection(verses, embeddings, scores, topK, percent, rs);
    MaterializedNoneAbove(verses, scores, |idx|, idx, percent);
    forall i | 0 <= i < |rs|
      ensures 0 <= idx[i] < |verses| && idx[i] < |scores|
      ensures rs[i].verse == verses[idx[i]] && rs[i].similarityScore == scores[idx[i]]
      ensures rs[i].confidencePercent == percent(scores[idx[i]])
    {
    }
  }

  /** The records of a result list. */
  function SeqVerses(rs: seq<SearchResult>): (vs: seq<VerseRecord>)
    ensures |vs| == |rs|
    ensures forall i :: 0 <= i < |rs| ==> vs[i] == rs[i].verse
  {
    seq(|rs|, i requires 0 <= i < |rs| => rs[i].verse)
  }

  /** The `.npz` file: absent, unreadable (`np.load` or the `embeddings` key fails), or holding
      the embeddings and the verses text, which may or may not parse as the verse list. */
  datatype VersesPayload = Parsed(records: seq<VerseRecord>) | Unparseable
  datatype FileContent = Missing | Unreadable | Archive(embeddings: seq<Vector>, verses: VersesPayload)

  /** The file at the save path. */
  class ArtifactFile {
    var content: FileContent

    constructor (content: FileContent)
      ensures this.content == content
    {
      this.content := content;
    }
  }

  /** The inner loop of `build_database`: one record per verse of surah `surah`, appended in
      the source's order. */
  method AppendRecords(all: seq<VerseRecord>, surah: nat, vs: seq<SourceVerse>) returns (extended: seq<VerseRecord>)
    ensures extended == all + RecordsOf(surah, vs)
  {
    extended := all;
    var j := 0;
    while j < |vs|
      invariant 0 <= j <= |vs|
      invariant extended == all + RecordsOf(surah, vs[..j])
    {
      RecordsOfSnoc(surah, vs, j);
      extended := extended + [MakeRecord(surah, vs[j])];
      j := j + 1;
    }
    assert vs[..j] == vs;
  }

  class QuranSearchEngine {
    var verses: seq<VerseRecord>
    var embeddings: Option<seq<Vector>>

    /** The alignment invariant: one embedding row per record. */
    ghost predicate Aligned()
      reads this
    {
      embeddings.Some? ==> |embeddings.value| == |verses|
    }

    /** `__init__`: no records and no embeddings yet. */
    constructor ()
      ensures verses == [] && embeddings == None
      ensures Aligned()
    {
      verses := [];
      embeddings := None;
    }

    /** `build_database`: the records of surahs 1..114 that fetched successfully, in order,
        and one embedding row per record computed from its search text. */
    method BuildDatabase(client: Client, embed: string -> Vector)
      modifies this
      ensures verses == Corpus(client)
      ensures embeddings == Some(EncodeAll(embed, SearchTexts(verses)))
      ensures Aligned()
      ensures forall i :: 0 <= i < |verses| ==> embeddings.value[i] == embed(verses[i].searchText)
    {
      var all: seq<VerseRecord> := [];
      var s := 1;
      while s <= SurahCount
        invariant 1 <= s <= SurahCount + 1
        invariant all == CorpusUpTo(client, s - 1)
      {
        var fetch := client.getSurah(s);
        assert CorpusUpTo(client, s) == CorpusUpTo(client, s - 1) + SurahRecords(client, s);
        if fetch.SurahOk? {
          all := AppendRecords(all, s, fetch.verses);
        }
        s := s + 1;
      }
      verses := all;
      var texts := SearchTexts(verses);
      embeddings := Some(EncodeAll(embed, texts));
    }

    /** `search`, given the similarity of the question to each embedding row. The rows are
        arg-sorted by score, the slice `[-top_k:]` is taken and reversed, and each selected
        index is looked up in `verses`. */
    method Search(scores: seq<real>, topK: int, percent: real -> string)
      returns (outcome: Result<seq<SearchResult>, SearchError>)
      requires |scores| == ScoreCount(embeddings)
      ensures IsSearchOutcome(verses, embeddings, scores, topK, percent, outcome)
      ensures outcome == Failure(NoIndex) <==> embeddings.Some? && |embeddings.value| == 0
      ensures Aligned() && embeddings.Some? && |embeddings.value| > 0 ==> outcome.Success?
    {
      if embeddings.Some? && |embeddings.value| == 0 {
        return Failure(NoIndex);
      }
      var top := TopRows(scores, topK);
      outcome := LookUp(verses, scores, top, percent);
      SelectionOutcome(verses, embeddings, scores, topK, percent, top, outcome);
    }

    /** `save_embeddings`: refuses without embeddings; otherwise writes both collections. */
    method SaveEmbeddings(file: ArtifactFile) returns (ok: bool)
      modifies file
      ensures ok <==> embeddings.Some?
      ensures ok ==> file.content == Archive(embeddings.value, Parsed(verses))
      ensures !ok ==> file.content == old(file.content)
    {
      if embeddings.None? {
        return false;
      }
      file.content := Archive(embeddings.value, Parsed(verses));
      return true;
    }

    /** `load_embeddings`: an unreadable or missing file changes nothing; otherwise the
        embeddings are replaced first, and the verses only when they parse, so a verses text
        that does not parse leaves the new embeddings beside the old verses. */
    method LoadEmbeddings(file: ArtifactFile) returns (ok: bool)
      modifies this
      ensures ok <==> file.content.Archive? && file.content.verses.Parsed?
      ensures !file.content.Archive? ==> verses == old(verses) && embeddings == old(embeddings)
      ensures file.content.Archive? ==> embeddings == Some(file.content.embeddings)
      ensures file.content.Archive? && file.content.verses.Parsed? ==> verses == file.content.verses.records
      ensures file.content.Archive? && file.content.verses.Unparseable? ==> verses == old(verses)
    {
      if !file.content.Archive? {
        return false;
      }
      embeddings := Some(file.content.embeddings);
      if file.content.verses.Unparseable? {
        return false;
      }
      verses := file.content.verses.records;
      return true;
    }
  }

  /** Loading what was saved restores the saved pair, alignment included. */
  method SaveThenLoad(source: QuranSearchEngine, file: ArtifactFile, target: QuranSearchEngine)
    returns (saved: bool, loaded: bool)
    requires source != target
    modifies file, target
    ensures saved <==> old(source.embeddings).Some?
    ensures saved ==> loaded && target.verses == source.verses && target.embeddings == source.embeddings
    ensures saved && source.Aligned() ==> target.Aligned()
  {
    saved := source.SaveEmbeddings(file);
    loaded := false;
    if saved {
      loaded := target.LoadEmbeddings(file);
    }
  }

  /** A verses text that does not parse after the embeddings were replaced leaves the engine
      misaligned whenever the file's rows and the old records differ in number. */
  method LoadUnparseableMisaligns(engine: QuranSearchEngine, file: ArtifactFile) returns (ok: bool)
    requires file.content.Archive? && file.content.verses.Unparseable?
    requires |file.content.embeddings| != |engine.verses|
    modifies engine
    ensures !ok && !engine.Aligned()
  {
    ok := engine.LoadEmbeddings(file);
  }
}
