/**
  How the relay turns an inlined image (a `data:` URL as in section 2 of RFC 2397,
  "data:image/<ext>;base64,<body>") into a stored file and the path saved with the message.
  The relay does not parse the URL; it slices it with JavaScript string operations, and these
  functions keep exactly those slices, so their behaviour on malformed input is the source's.
*/
module DataUrl {
  import opened JsString
  import opened PathJoin

  /** The prefix whose length (11) is where the extension is assumed to start. */
  const MediaPrefix: string := "data:image/"
  /** `indexOf` looks for this to find where the extension ends. */
  const Marker: string := ";base64"
  /** `split` cuts at this to find the base64 body. */
  const Separator: string := ";base64,"
  const UploadsRoute: string := "/uploads/"

  /** `image.substring("data:image/".length, image.indexOf(";base64"))`. */
  function ExtensionOf(image: string): string
  {
    Substring(image, |MediaPrefix|, IndexOf(image, Marker))
  }

  /** `image.split(';base64,').pop()`. */
  function BodyOf(image: string): string
  {
    AfterLast(image, Separator)
  }

  /** The stored body is the text after the last ";base64,": it ends the URL and holds no separator. */
  lemma BodyAfterLastSeparator(image: string)
    ensures var body := BodyOf(image);
            && IsSuffix(body, image)
            && IndexOf(body, Separator) == -1
            && (body == image || OccursAt(image, Separator, |image| - |body| - |Separator|))
  {
    AfterLastShape(image, Separator);
  }

  /** `${uuid}.${ext}`, the name the body is written under. */
  function FileName(name: string, ext: string): string
  {
    name + "." + ext
  }

  /** `/uploads/${filename}`, the reference stored in the message. */
  function UploadPath(name: string, ext: string): string
  {
    UploadsRoute + FileName(name, ext)
  }

  /** A uuid-like name and an extension without '/' give a file directly inside the uploads directory. */
  lemma FileNameStaysInside(dir: seq<string>, name: string, ext: string)
    requires '/' !in name && '/' !in ext && |name| >= 2
    ensures Resolve(dir, FileName(name, ext)) == dir + [FileName(name, ext)]
  {
    var file := FileName(name, ext);
    assert '/' !in file by {
      forall i | 0 <= i < |file| ensures file[i] != '/' {
        if i < |name| { assert file[i] == name[i]; }
        else if i > |name| { assert file[i] == ext[i - |name| - 1]; }
      }
    }
    ResolvePlain(dir, file);
  }

  /** `<name>.x`, the part of the file name before an extension that starts "x/". */
  lemma DottedHead(name: string)
    requires '/' !in name && |name| >= 1
    ensures '/' !in name + ".x" && IsName(name + ".x")
  {
    var head := name + ".x";
    forall i | 0 <= i < |head| ensures head[i] != '/' { if i < |name| { assert head[i] == name[i]; } }
    assert |head| >= 3;
  }

  /** An extension "x/../<target>" makes the file `target` itself, a sibling of the intended one. */
  lemma ExtensionReachesSibling(dir: seq<string>, name: string, target: string)
    requires '/' !in name && |name| >= 1
    requires '/' !in target && IsName(target)
    ensures Resolve(dir, FileName(name, "x/../" + target)) == dir + [target]
  {
    assert FileName(name, "x/../" + target) == name + ".x" + "/../" + target;
    DottedHead(name);
    ResolveDotDot(dir, name + ".x", target);
  }

  /**
    An extension "x/../../<target>" makes a file outside the uploads directory `parent + [sub]`:
    `target` in its parent.
  */
  lemma ExtensionEscapes(parent: seq<string>, sub: string, name: string, target: string)
    requires '/' !in name && |name| >= 1
    requires '/' !in target && IsName(target)
    ensures Resolve(parent + [sub], FileName(name, "x/../../" + target)) == parent + [target]
  {
    assert FileName(name, "x/../../" + target) == name + ".x" + "/../../" + target;
    DottedHead(name);
    ResolveEscapes(parent, sub, name + ".x", target);
  }

  /**
    An extension "x/../../<sub>/<target>" leaves the uploads directory `parent + [sub]` and
    comes back in: it makes the same file as `target`.
  */
  lemma ExtensionReenters(parent: seq<string>, sub: string, name: string, target: string)
    requires '/' !in name && |name| >= 1
    requires '/' !in sub && IsName(sub)
    requires '/' !in target && IsName(target)
    ensures Resolve(parent + [sub], FileName(name, "x/../../" + sub + "/" + target)) == parent + [sub, target]
  {
    assert FileName(name, "x/../../" + sub + "/" + target) == name + ".x" + "/../../" + sub + "/" + target;
    DottedHead(name);
    ResolveReenters(parent, sub, name + ".x", target);
  }

  /** The data URL a browser's FileReader produces for an image of subtype `ext`. */
  function DataUrlOf(ext: string, body: string): string
  {
    MediaPrefix + ext + Separator + body
  }

  /** On a well-formed data URL the slices recover exactly the subtype and the base64 body. */
  lemma ParseDataUrlOf(ext: string, body: string)
    requires ';' !in ext && ';' !in body
    ensures ExtensionOf(DataUrlOf(ext, body)) == ext
    ensures BodyOf(DataUrlOf(ext, body)) == body
  {
    var head := MediaPrefix + ext;
    assert ';' !in MediaPrefix;
    assert ';' !in head;
    var url := DataUrlOf(ext, body);
    assert url == head + Marker + ("," + body);
    IndexOfAfterPrefix(head, Marker, "," + body);
    SubstringInRange(url, |MediaPrefix|, |head|);
    assert url[|MediaPrefix|..|head|] == ext;
    AfterLastOfJoined(head, Separator, body);
  }

  /**
    Without ";base64" the end bound is -1, clamped to 0 and swapped with 11, so the
    "extension" is the first eleven characters, and the body is the whole string.
  */
  lemma NoMarker(image: string)
    requires IndexOf(image, Marker) == -1
    ensures ExtensionOf(image) == image[..Min(|MediaPrefix|, |image|)]
    ensures BodyOf(image) == image
  {
    IndexOfAbsentSeparator(image);
  }

  /** Where ";base64," occurs, so does ";base64". */
  lemma MarkerInSeparator(image: string, r: int)
    requires OccursAt(image, Separator, r)
    ensures OccursAt(image, Marker, r)
  {
    assert image[r..r + |Marker|] == image[r..r + |Separator|][..|Marker|];
  }

  /** ";base64," cannot occur where ";base64" does not. */
  lemma IndexOfAbsentSeparator(image: string)
    requires IndexOf(image, Marker) == -1
    ensures IndexOf(image, Separator) == -1
  {
    IndexOfIsFirst(image, Marker);
    IndexOfIsFirst(image, Separator);
    var r := IndexOf(image, Separator);
    if r != -1 {
      MarkerInSeparator(image, r);
    }
  }

  /** A ";base64" that starts before position 11 makes `substring` swap its bounds. */
  lemma MarkerBeforePrefixEnd(image: string)
    requires 0 <= IndexOf(image, Marker) < |MediaPrefix| <= |image|
    ensures ExtensionOf(image) == image[IndexOf(image, Marker)..|MediaPrefix|]
  {
  }

  /** Names of one length (uuids) that differ give different stored paths, whatever the extensions. */
  lemma {:induction false} UploadPathsDistinct(n1: string, e1: string, n2: string, e2: string)
    requires |n1| == |n2| && n1 != n2
    ensures UploadPath(n1, e1) != UploadPath(n2, e2)
  {
    var k :| 0 <= k < |n1| && n1[k] != n2[k];
    assert UploadPath(n1, e1)[|UploadsRoute| + k] == n1[k];
    assert UploadPath(n2, e2)[|UploadsRoute| + k] == n2[k];
  }
}
