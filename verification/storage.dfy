/** The one file the compiled factory map owns, seen through the few
    filesystem primitives the core uses: `file_exists`, `is_writable` on the
    file or on its directory, `file_put_contents` and `require`. */
module Storage {
  import opened Wrappers
  import opened Errors

  /** One compiled factory: its id and the PHP source of the callable. When
      a compiled file is loaded with `require`, each callable is represented
      by the source it was evaluated from. */
  datatype Entry = Entry(id: string, code: string)

  /** An existing file: whether `is_writable` holds of it, its text, and
      what `require` gives when it is loaded: the array it returns, or what
      loading it throws (a `ParseError`, or a `TypeError` when it does not
      return an array). */
  datatype File = File(writable: bool, text: string, loaded: Result<seq<Entry>, Throwable>)

  /** The state of the compiled file's path: the file if `file_exists`
      holds, and whether its parent directory is writable. */
  datatype FileSystem = FileSystem(file: Option<File>, dirWritable: bool)

  /** `PHP_EOL` on the platforms this model assumes (not Windows). */
  const Eol: string := "\n"

  /** Everything the generated document holds before the array literal. */
  const Header: string := "<?php" + Eol + Eol + "return "

  /** The document written to the compiled file: a PHP script returning the
      array literal that `arrayStr` (the external `Utils::ArrayStr`) produces. */
  function Render(arrayStr: seq<Entry> -> string, compiled: seq<Entry>): string {
    Header + arrayStr(compiled) + ";"
  }

  /** Recovers the array literal of a rendered document, if the text has the
      shape `Render` produces. */
  function ReturnedLiteral(text: string): (r: Option<string>)
    ensures r.Some? ==> text == Header + r.value + ";"
  {
    if |text| >= |Header| + 1 && text[..|Header|] == Header && text[|text| - 1] == ';'
    then
      var literal := text[|Header|..|text| - 1];
      assert text == text[..|Header|] + literal + [text[|text| - 1]];
      Some(literal)
    else None
  }

  /** The rendered document always has the expected shape and gives back
      exactly the array literal it was built from. */
  lemma RenderRoundTrip(arrayStr: seq<Entry> -> string, compiled: seq<Entry>)
    ensures ReturnedLiteral(Render(arrayStr, compiled)) == Some(arrayStr(compiled))
  {
  }

  /** `is_writable` as the core applies it: the file itself when it exists,
      its parent directory otherwise. */
  function PathWritable(fs: FileSystem): (w: bool)
    ensures fs.file.Some? ==> (w <==> fs.file.value.writable)
    ensures fs.file.None? ==> (w <==> fs.dirWritable)
  {
    match fs.file
    case Some(f) => f.writable
    case None => fs.dirWritable
  }

  /** `file_put_contents`: the file now holds `text`, and loading it returns
      the array `loaded`. A file created in a writable directory is writable, and an
      overwritten file keeps its permission. */
  function Write(fs: FileSystem, text: string, loaded: seq<Entry>): (fs': FileSystem)
    requires PathWritable(fs)
    ensures fs'.file == Some(File(true, text, Success(loaded)))
    ensures fs'.dirWritable == fs.dirWritable
  {
    FileSystem(Some(File(true, text, Success(loaded))), fs.dirWritable)
  }

}
