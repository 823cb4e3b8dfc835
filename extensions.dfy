/**
 * Which file extensions the ingest script selects: its built-in set, widened
 * by the comma-separated `--ext` option, and the case-insensitive test of a
 * file name's suffix against that set (ingest.py).
 */
module Extensions {
  import opened Values
  import opened Strings

  /** The file types Open WebUI extracts text from. */
  const DefaultExtensions: set<string> := {
    ".pdf", ".txt", ".md", ".rst", ".csv",
    ".docx", ".doc", ".xlsx", ".xls", ".pptx",
    ".html", ".htm", ".xml", ".json"
  }

  predicate StartsWithDot(e: string)
  {
    |e| > 0 && e[0] == '.'
  }

  /** One `--ext` entry made into an extension: a dot is put in front unless one is there. */
  function Dotted(e: string): (r: string)
    ensures StartsWithDot(r)
    ensures StartsWithDot(e) ==> r == e
    ensures !StartsWithDot(e) ==> r[1..] == e
  {
    if StartsWithDot(e) then e else "." + e
  }

  /** Dotting an extension twice adds no second dot. */
  lemma DottedIdempotent(e: string)
    ensures Dotted(Dotted(e)) == Dotted(e)
  {
  }

  lemma DefaultExtensionsDotted()
    ensures forall x :: x in DefaultExtensions ==> StartsWithDot(x)
  {
  }

  /** The extension set after the `--ext` option (absent or empty: the defaults alone). */
  function MergeExtensions(ext: Option<string>): (r: set<string>)
    ensures DefaultExtensions <= r
    ensures ext.Some? && ext.value != "" ==>
              forall e :: e in Split(ext.value, ',') ==> Dotted(e) in r
    ensures forall x :: x in r ==>
              x in DefaultExtensions || (ext.Some? && exists e :: e in Split(ext.value, ',') && x == Dotted(e))
    ensures (ext.None? || ext == Some("")) ==> r == DefaultExtensions
    ensures forall x :: x in r ==> StartsWithDot(x)
  {
    DefaultExtensionsDotted();
    if ext.Some? && ext.value != "" then
      DefaultExtensions + set e | e in Split(ext.value, ',') :: Dotted(e)
    else
      DefaultExtensions
  }

  /** `p.suffix.lower() in extensions` for a file whose final component is `name`. */
  predicate Selects(extensions: set<string>, name: string)
  {
    Lower(Suffix(name)) in extensions
  }

  /**
   * A file named stem.ext is selected exactly when the lower-cased ".ext" is in
   * the set, whatever the case of the name.
   */
  lemma SelectsByExtension(extensions: set<string>, stem: string, ext: string)
    requires stem != [] && ext != [] && '.' !in ext
    ensures Selects(extensions, stem + "." + ext) <==> Lower("." + ext) in extensions
  {
    SuffixOfStemAndExtension(stem, ext);
  }

  /**
   * Every built-in extension selects the files that end in it, in any case:
   * each is a dot followed by lower-case letters and no second dot.
   */
  lemma DefaultExtensionsSelect(stem: string, e: string, x: string)
    requires stem != [] && e in DefaultExtensions && Lower(x) == e
    ensures Selects(DefaultExtensions, stem + x)
  {
    assert |e| >= 3 && e[0] == '.' && '.' !in e[1..];
    assert x[0] == '.' by {
      assert LowerChar(x[0]) == '.';
    }
    assert '.' !in x[1..] by {
      forall i | 1 <= i < |x| ensures x[i] != '.' {
        assert LowerChar(x[i]) == e[i] && e[i] in e[1..];
      }
    }
    var ext := x[1..];
    assert stem + x == stem + "." + ext;
    SuffixOfStemAndExtension(stem, ext);
  }

  /**
   * An entry that is only a dot, holds a second dot, or holds an upper-case
   * letter selects no file at all: suffixes have one dot and are lower-cased
   * before the test, while `--ext` entries are not.
   */
  lemma UnmatchableEntry(x: string, name: string)
    requires StartsWithDot(x)
    requires |x| < 2 || '.' in x[1..] || exists i :: 0 <= i < |x| && 'A' <= x[i] <= 'Z'
    ensures Lower(Suffix(name)) != x
  {
  }

  /** Upper-case `--ext` entries are kept as given and so never select a file. */
  lemma UpperCaseEntryNeverSelects(ext: string, e: string, name: string)
    requires e in Split(ext, ',')
    requires exists i :: 0 <= i < |e| && 'A' <= e[i] <= 'Z'
    ensures Lower(Suffix(name)) != Dotted(e)
  {
    var i :| 0 <= i < |e| && 'A' <= e[i] <= 'Z';
    var d := Dotted(e);
    if !StartsWithDot(e) {
      assert d[i + 1] == e[i];
    }
    UnmatchableEntry(d, name);
  }
}
