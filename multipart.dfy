/**
  `MultipartRequest`: an append-only buffer that serialises a
  multipart/form-data body (RFC 7578, section 4) using the boundary delimiter
  and close-delimiter lines of RFC 2046, section 5.1.1. The ghost field
  `fields` is the list of form fields added so far; `data` is always their
  serialisation.
 */
module Multipart {
  import opened Wrappers
  import opened Utf8

  const SEPARATOR := "\r\n"

  /** A field as the two `add` overloads receive it. A text field with a nil value is kept
      here, and contributes no bytes. */
  datatype FormField =
    | TextField(key: string, value: Option<string>)
    | FileField(key: string, fileName: string, mimeType: string, fileData: seq<byte>)

  /** `disposition(_:)` */
  function Disposition(key: string): string {
    "Content-Disposition: form-data; name=\"" + key + "\""
  }

  /** `--boundary` followed by CRLF: the delimiter line that opens every part. */
  function DelimiterLine(boundary: string): string {
    "--" + boundary + SEPARATOR
  }

  /** `--boundary--`: the close delimiter. */
  function CloseDelimiter(boundary: string): string {
    "--" + boundary + "--"
  }

  /** Text of a value part: delimiter line, disposition, blank line, value, CRLF. */
  function TextPart(boundary: string, key: string, value: string): string {
    DelimiterLine(boundary) + Disposition(key) + SEPARATOR + SEPARATOR + value + SEPARATOR
  }

  /** Text that precedes the raw bytes of a file part. */
  function FileHead(boundary: string, key: string, fileName: string, mimeType: string): string {
    DelimiterLine(boundary)
    + Disposition(key) + "; filename=\"" + fileName + "\"" + SEPARATOR
    + "Content-Type: " + mimeType + SEPARATOR + SEPARATOR
  }

  /** The bytes one field adds to the buffer. */
  function FieldBytes(boundary: string, f: FormField): seq<byte> {
    match f
    case TextField(key, value) =>
      if value.None? then [] else Encode(TextPart(boundary, key, value.value))
    case FileField(key, fileName, mimeType, fileData) =>
      Encode(FileHead(boundary, key, fileName, mimeType)) + fileData + Encode(SEPARATOR)
  }

  /** The bytes `part` gives each field, one after the other in the order the fields were added. */
  function Join(fields: seq<FormField>, part: FormField -> seq<byte>): seq<byte>
    decreases |fields|
  {
    if fields == [] then []
    else Join(fields[..|fields| - 1], part) + part(fields[|fields| - 1])
  }

  /** The bytes of a list of fields, in the order they were added. */
  function FormBytes(boundary: string, fields: seq<FormField>): seq<byte> {
    Join(fields, f => FieldBytes(boundary, f))
  }

  lemma JoinSnoc(fields: seq<FormField>, f: FormField, part: FormField -> seq<byte>)
    ensures Join(fields + [f], part) == Join(fields, part) + part(f)
  {
    assert (fields + [f])[..|fields|] == fields;
  }

  lemma {:induction false} JoinConcat(fields: seq<FormField>, more: seq<FormField>, part: FormField -> seq<byte>)
    ensures Join(fields + more, part) == Join(fields, part) + Join(more, part)
    decreases |more|
  {
    if more == [] {
      assert fields + more == fields;
    } else {
      var init, last := more[..|more| - 1], more[|more| - 1];
      assert more == init + [last];
      assert fields + more == (fields + init) + [last];
      JoinConcat(fields, init, part);
      JoinSnoc(fields + init, last, part);
      JoinSnoc(init, last, part);
    }
  }

  /** Adding one field appends exactly that field's bytes. */
  lemma FormBytesSnoc(boundary: string, fields: seq<FormField>, f: FormField)
    ensures FormBytes(boundary, fields + [f]) == FormBytes(boundary, fields) + FieldBytes(boundary, f)
  {
    JoinSnoc(fields, f, g => FieldBytes(boundary, g));
  }

  /** The bytes of two runs of fields are the bytes of each, one after the other. */
  lemma FormBytesConcat(boundary: string, fields: seq<FormField>, more: seq<FormField>)
    ensures FormBytes(boundary, fields + more) == FormBytes(boundary, fields) + FormBytes(boundary, more)
  {
    JoinConcat(fields, more, f => FieldBytes(boundary, f));
  }

  /** Serialising is append-only: the bytes of a prefix of the fields are a prefix of the bytes. */
  lemma FormBytesPrefix(boundary: string, fields: seq<FormField>, more: seq<FormField>)
    ensures FormBytes(boundary, fields) <= FormBytes(boundary, fields + more)
  {
    FormBytesConcat(boundary, fields, more);
  }

  /** Appending four pieces one after another appends their concatenation; kept apart so that
      the methods below do not reassociate long concatenations in their own larger context. */
  lemma AppendFour(d: seq<byte>, a: seq<byte>, b: seq<byte>, c: seq<byte>, e: seq<byte>)
    ensures d + a + b + c + e == d + (a + b + c + e)
  {
  }

  /** Appending five pieces one after another appends their concatenation. */
  lemma AppendFive(d: seq<byte>, a: seq<byte>, b: seq<byte>, c: seq<byte>, e: seq<byte>, f: seq<byte>)
    ensures d + a + b + c + e + f == d + (a + b + c + e + f)
  {
  }

  /** The bytes of a value part, piece by piece as `add(key:value:)` appends them. */
  lemma TextFieldBytes(boundary: string, key: string, value: string)
    ensures FieldBytes(boundary, TextField(key, Some(value)))
         == Encode(DelimiterLine(boundary)) + Encode(Disposition(key) + SEPARATOR)
            + Encode(SEPARATOR) + Encode(value + SEPARATOR)
  {
    var d, k, v := DelimiterLine(boundary), Disposition(key) + SEPARATOR, value + SEPARATOR;
    assert TextPart(boundary, key, value) == d + k + SEPARATOR + v;
    EncodeAppend(d + k + SEPARATOR, v);
    EncodeAppend(d + k, SEPARATOR);
    EncodeAppend(d, k);
  }

  /** The bytes of a file part, piece by piece as `add(key:fileName:...)` appends them. */
  lemma FileFieldBytes(boundary: string, key: string, fileName: string, mimeType: string, fileData: seq<byte>)
    ensures FieldBytes(boundary, FileField(key, fileName, mimeType, fileData))
         == Encode(DelimiterLine(boundary))
            + Encode(Disposition(key) + "; filename=\"" + fileName + "\"" + SEPARATOR)
            + Encode("Content-Type: " + mimeType + SEPARATOR + SEPARATOR)
            + fileData + Encode(SEPARATOR)
  {
    var d := DelimiterLine(boundary);
    var disposition := Disposition(key) + "; filename=\"" + fileName + "\"" + SEPARATOR;
    var contentType := "Content-Type: " + mimeType + SEPARATOR + SEPARATOR;
    assert FileHead(boundary, key, fileName, mimeType) == d + disposition + contentType;
    EncodeAppend(d + disposition, contentType);
    EncodeAppend(d, disposition);
  }

  /** Every field that contributes bytes starts them with the delimiter line. */
  lemma FieldStartsWithDelimiter(boundary: string, f: FormField)
    requires f.FileField? || f.value.Some?
    ensures Encode(DelimiterLine(boundary)) <= FieldBytes(boundary, f)
  {
    var d := DelimiterLine(boundary);
    match f
    case TextField(key, value) =>
      var rest := Disposition(key) + SEPARATOR + SEPARATOR + value.value + SEPARATOR;
      assert TextPart(boundary, key, value.value) == d + rest;
      EncodeAppend(d, rest);
    case FileField(key, fileName, mimeType, fileData) =>
      var rest := Disposition(key) + "; filename=\"" + fileName + "\"" + SEPARATOR
        + "Content-Type: " + mimeType + SEPARATOR + SEPARATOR;
      assert FileHead(boundary, key, fileName, mimeType) == d + rest;
      EncodeAppend(d, rest);
  }

  class MultipartRequest {
    const boundary: string
    var data: seq<byte>
    ghost var fields: seq<FormField>

    ghost predicate Valid()
      reads this
    {
      data == FormBytes(boundary, fields)
    }

    /** `init(boundary:)`; the random UUID default is left to the caller. */
    constructor (boundary: string)
      ensures Valid()
      ensures this.boundary == boundary && fields == [] && data == []
    {
      this.boundary := boundary;
      data := [];
      fields := [];
    }

    /** `data.append(string)`, with the default UTF-8 encoding. */
    method AppendString(s: string)
      modifies this`data
      ensures data == old(data) + Encode(s)
    {
      data := Appended(data, s, Utf8);
    }

    /** `appendBoundarySeparator()` */
    method AppendBoundarySeparator()
      modifies this`data
      ensures data == old(data) + Encode(DelimiterLine(boundary))
    {
      AppendString("--" + boundary + SEPARATOR);
    }

    /** `appendSeparator()` */
    method AppendSeparator()
      modifies this`data
      ensures data == old(data) + Encode(SEPARATOR)
    {
      AppendString(SEPARATOR);
    }

    /** `add(key:value:)`: a nil value adds nothing; otherwise one value part. */
    method Add(key: string, value: Option<string>)
      requires Valid()
      modifies this`data, this`fields
      ensures Valid()
      ensures fields == old(fields) + [TextField(key, value)]
      ensures data == old(data) + FieldBytes(boundary, TextField(key, value))
    {
      FormBytesSnoc(boundary, fields, TextField(key, value));
      fields := fields + [TextField(key, value)];
      if value.Some? {
        var v := value.value;
        ghost var d0 := data;
        AppendBoundarySeparator();
        AppendString(Disposition(key) + SEPARATOR);
        AppendSeparator();
        AppendString(v + SEPARATOR);
        TextFieldBytes(boundary, key, v);
        AppendFour(d0, Encode(DelimiterLine(boundary)), Encode(Disposition(key) + SEPARATOR),
          Encode(SEPARATOR), Encode(v + SEPARATOR));
      }
    }

    /** `add(key:fileName:fileMimeType:fileData:)`: one file part carrying the raw bytes. */
    method AddFile(key: string, fileName: string, fileMimeType: string, fileData: seq<byte>)
      requires Valid()
      modifies this`data, this`fields
      ensures Valid()
      ensures fields == old(fields) + [FileField(key, fileName, fileMimeType, fileData)]
      ensures data == old(data) + FieldBytes(boundary, FileField(key, fileName, fileMimeType, fileData))
    {
      FormBytesSnoc(boundary, fields, FileField(key, fileName, fileMimeType, fileData));
      fields := fields + [FileField(key, fileName, fileMimeType, fileData)];
      ghost var d0 := data;
      AppendBoundarySeparator();
      AppendString(Disposition(key) + "; filename=\"" + fileName + "\"" + SEPARATOR);
      AppendString("Content-Type: " + fileMimeType + SEPARATOR + SEPARATOR);
      data := data + fileData;
      AppendSeparator();
      FileFieldBytes(boundary, key, fileName, fileMimeType, fileData);
      AppendFive(d0, Encode(DelimiterLine(boundary)),
        Encode(Disposition(key) + "; filename=\"" + fileName + "\"" + SEPARATOR),
        Encode("Content-Type: " + fileMimeType + SEPARATOR + SEPARATOR), fileData, Encode(SEPARATOR));
    }

    /** `header`: the Content-Type value that announces the boundary. */
    function Header(): (h: string)
      ensures |h| == 30 + |boundary|
      ensures h[..30] == "multipart/form-data; boundary="
      ensures h[30..] == boundary
    {
      "multipart/form-data; boundary=" + boundary
    }

    /** `body`: the buffer followed by the close delimiter; the buffer itself is untouched. */
    function Body(): (b: seq<byte>)
      reads this
      requires Valid()
      ensures b == FormBytes(boundary, fields) + Encode(CloseDelimiter(boundary))
      ensures data <= b
    {
      Appended(data, "--" + boundary + "--", Utf8)
    }
  }

  /** A request with no fields has the close delimiter as its whole body. */
  lemma FreshBody(boundary: string)
    ensures FormBytes(boundary, []) + Encode(CloseDelimiter(boundary)) == Encode(CloseDelimiter(boundary))
  {
  }

  /** Adding a text field with a nil value changes nothing in the body. */
  lemma NilValueAddsNothing(boundary: string, fields: seq<FormField>, key: string)
    ensures FormBytes(boundary, fields + [TextField(key, None)]) == FormBytes(boundary, fields)
  {
    assert (fields + [TextField(key, None)])[..|fields|] == fields;
  }
}
