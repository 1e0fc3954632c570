/**
 * The record shapes the verse screen receives from the verse API
 * (types/index.ts), trimmed of word and script data other than the
 * Indo-Pak text.
 */
module QuranTypes {

  /** The recitation of one verse: a path relative to the audio server. */
  datatype AudioRef = AudioRef(url: string)

  /** One verse; `id` is the list key of its row. */
  datatype Verse = Verse(
    id: int,
    verseNumber: int,
    verseKey: string,
    textIndopak: string,
    audio: AudioRef)

  /** The `pagination` block of a page of verses. */
  datatype PaginationInfo = PaginationInfo(
    perPage: int,
    currentPage: int,
    nextPage: int,
    totalPages: int,
    totalRecords: int)

  /** One page of verses, as the API answers one fetch (`QuranResponse`). */
  datatype QuranResponse = QuranResponse(verses: seq<Verse>, pagination: PaginationInfo)
}
