/** The file extensions the ingest pipeline recognises. */
module MediaTypes {

  /** Extensions of audio files, lower case, with the leading dot. */
  const AudioExtensions: set<string> := {".mp3", ".wav", ".flac", ".m4a"}

  /** Extensions of archives; ".tar.gz" has two dots. */
  const ArchiveExtensions: set<string> := {".zip", ".rar", ".tar", ".tar.gz"}

  /** A dot followed by one or more characters, none of them a dot. */
  predicate IsSingleSuffix(e: string) {
    |e| >= 2 && e[0] == '.' && forall j :: 1 <= j < |e| ==> e[j] != '.'
  }

  /** Every audio extension is a single suffix, as `Path.suffix` returns one. */
  lemma AudioExtensionsAreSingleSuffixes()
    ensures forall e :: e in AudioExtensions ==> IsSingleSuffix(e)
  {
  }
}
