/**
 * How the browser converter's archive relates to the server route's: the
 * two share their first four targets and the ICO name, and the browser
 * leaves out the three small PNGs and the SVG.
 */
module Consistency {
  import opened Common
  import Uploader
  import UploadRoute

  /** The browser's loop tasks are the server plan's first four PNG targets, with the same sizes. */
  lemma SharedPngTargets()
    ensures forall j :: 0 <= j < |Uploader.Tasks| ==>
      UploadRoute.Plan[j] == UploadRoute.Target(Uploader.Tasks[j].name, UploadRoute.ResizePng(Uploader.Tasks[j].size))
    ensures Uploader.IcoEntryName == UploadRoute.Plan[7].name
    ensures Uploader.IcoSizes == UploadRoute.IcoSizes
  {
  }

  /**
   * A successful browser run archives the server's entry names except the
   * 48, 32 and 16 pixel PNGs and favicon.svg.
   */
  lemma BrowserArchiveIsServerArchiveMinusSmallPngsAndSvg(f: Uploader.FileRef, compress: Uploader.Compressor)
    requires Uploader.AllRenditions(f, compress)
    ensures Uploader.EntryNames(Uploader.SuccessEntries(f, compress))
      == UploadRoute.ArchiveEntryNames - {"favicon-48x48.png", "favicon-32x32.png", "favicon-16x16.png", "favicon.svg"}
  {
    Uploader.SuccessEntryNames(f, compress);
  }
}
