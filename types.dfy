/** Values that flow through the import control: files, file contents, datasets and
    the classifier functions the control consults but does not define. */
module Types {

  datatype Option<+T> = None | Some(value: T)

  datatype Result<+R, +E> = Ok(value: R) | Err(error: E)

  /** What a FileReader (or a zip reader, or an XHR) hands back: text or an ArrayBuffer. */
  datatype Content = Text(text: string) | Binary(bytes: seq<bv8>)

  /** JavaScript truthiness of a reader result: an empty string is falsy, while an
      ArrayBuffer is an object and so is truthy even when it is empty. */
  predicate Truthy(c: Content)
  {
    match c
    case Text(s) => s != ""
    case Binary(_) => true
  }

  /** JavaScript's `length` of a string: UTF-16 code units, two for a character
      outside the Basic Multilingual Plane. */
  function Utf16Length(s: string): nat
    decreases |s|
  {
    if |s| == 0 then 0
    else (if s[0] as int >= 0x1_0000 then 2 else 1) + Utf16Length(s[1..])
  }

  /** A string has at least one and at most two code units per character. */
  lemma {:induction false} Utf16LengthBounds(s: string)
    ensures |s| <= Utf16Length(s) <= 2 * |s|
    ensures Utf16Length(s) == |s| <==> forall i :: 0 <= i < |s| ==> s[i] as int < 0x1_0000
    decreases |s|
  {
    if |s| > 0 {
      Utf16LengthBounds(s[1..]);
      assert forall i :: 1 <= i < |s| ==> s[i] == s[1..][i - 1];
    }
  }

  /** `content.byteLength || content.length`: bytes of an ArrayBuffer, code units of a
      string. */
  function Size(c: Content): nat
  {
    match c
    case Text(s) => Utf16Length(s)
    case Binary(b) => |b|
  }

  /** Above this size a progress message is shown before importing. */
  const LargeContentSize: nat := 40000000

  predicate IsLarge(c: Content)
  {
    Size(c) > LargeContentSize
  }

  /** A File or Blob: a name and its content. */
  datatype File = File(name: string, content: Content)

  /** An attribute table attached to a layer; `records` is what `size()` reports. */
  datatype Table = Table(records: nat, source: Content, encoding: string)

  /** A layer: optional attribute table, optional shapes (only their number matters
      here) and optional geometry type. */
  datatype Layer = Layer(data: Option<Table>, shapes: Option<nat>, geometryType: Option<string>)

  /** `dataset.info`: the files the dataset came from, its projection text and the
      `no_repair` flag recorded at import. */
  datatype Info = Info(inputFiles: seq<string>, prj: Option<Content>, noRepair: bool)

  datatype Dataset = Dataset(layers: seq<Layer>, info: Info)

  /** Options read from the import form. */
  datatype ImportOpts = ImportOpts(encoding: string, noRepair: bool, autoSnap: bool)

  /** An exception or error value: a bare string, or an object with a message. */
  datatype ImportError = ErrorString(text: string) | ErrorObject(message: string)

  /** Functions of the surrounding library that the control consults. They are not part
      of this model, so they are parameters. `guessInputFileType` returns "" where the
      library returns nothing. `dbfRecordCount` is the record count of the table that
      `ShapefileTable(content, encoding)` builds, or nothing when that constructor
      throws. */
  datatype Classifiers = Classifiers(
    guessInputFileType: string -> string,
    guessInputType: (string, Content) -> string,
    couldBeDsvFile: string -> bool,
    isZipFile: string -> bool,
    isBinaryFile: string -> bool,
    getPathBase: string -> string,
    getFileExtension: string -> string,
    getUrlFilename: string -> string,
    dbfRecordCount: (Content, string) -> Option<nat>)
}
