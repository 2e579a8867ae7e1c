/** What the record source (the HTTP client of quran_api.py, not modelled itself) hands to the
    core: success or failure of a fetch, and for a surah its names, verse count and verses.
    The network, the JSON cache and the fallback to English only are behind these values. */
module QuranSource {
  import opened Wrappers

  /** One verse of `get_surah(...)['verses']`; `urdu` is `None` when the key is absent. */
  datatype SourceVerse = SourceVerse(number: nat, arabic: string, english: string, urdu: Option<string>)

  /** The result of `get_surah(n)`: `success` true with the surah's data, or `success` false. */
  datatype SurahFetch =
    | SurahOk(englishName: string, arabicName: string, versesCount: nat, verses: seq<SourceVerse>)
    | SurahFailed

  /** The client as the app sees it: `get_surah(n)` and the `success` flag of
      `get_specific_verse(s, v)`. */
  datatype Client = Client(getSurah: int -> SurahFetch, verseAvailable: (int, int) -> bool)
}
