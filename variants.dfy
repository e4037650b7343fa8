/** How the two `MusicService` copies read the search's stdout: the service
    keeps the last chunk, the older copy appends every chunk and also needs
    exit code 0. */
module VariantComparison {
  import opened Wrappers
  import opened JsText
  import MusicServiceModel
  import PlayCommandService

  /** On a single stdout chunk and a clean exit both read the same id. */
  lemma {:induction false} AgreeOnOneChunk(chunk: string)
    ensures MusicServiceModel.ServiceVideoId([chunk]) == PlayCommandService.VariantVideoId([chunk], Some(0))
  {
    var chunks := [chunk];
    assert chunks[1..] == [];
    assert Concat(chunks) == chunk;
    assert chunks[|chunks| - 1] == chunk;
  }

  /** When the id arrives in two chunks, the service keeps only the second
      piece while the older copy keeps the whole id. */
  lemma DifferOnSplitOutput()
    ensures MusicServiceModel.ServiceVideoId(["ab", "c\n"]) == Some("c")
    ensures PlayCommandService.VariantVideoId(["ab", "c\n"], Some(0)) == Some("abc")
  {
    var chunks := ["ab", "c\n"];
    assert chunks[1..] == ["c\n"] && chunks[1..][1..] == [];
    assert Concat(chunks) == "abc" + "\n";
    assert chunks[|chunks| - 1] == "c" + "\n";
    TrimOfTrailingNewline("c");
    TrimOfTrailingNewline("abc");
  }

  /** Trimming `s + "\n"` gives `s` when `s` has no whitespace at either end. */
  lemma TrimOfTrailingNewline(s: string)
    requires s != [] && !IsJsWhitespace(s[0]) && !IsJsWhitespace(s[|s| - 1])
    ensures Trim(s + "\n") == s
  {
    var t := s + "\n";
    assert LeadingWhitespace(t) == 0;
    assert TrailingWhitespace(t[..|t| - 1]) == 0 by {
      assert t[..|t| - 1] == s;
    }
    assert TrailingWhitespace(t) == 1;
    assert t[..|t| - 1] == s;
  }
}
