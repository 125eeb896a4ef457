/** One message bubble of the earlier client
    (chat-frontend/src/components/Message/Message.jsx): the text, or for a
    file the icon chosen by its MIME type, an image preview or the type label. */
module LegacyMessage {
  import opened Strings
  import opened Domain

  /** A message as the earlier server relays it. */
  datatype LegacyMessage = LegacyMessage(
    room: string, username: string, message: string, time: string,
    fileUrl: Option<string>, fileName: string, fileType: string)

  datatype FileIcon = Picture | Film | Note | Pdf | Document | Chart | Archive | Folder

  /** The emoji shown for each icon. */
  function Glyph(icon: FileIcon): string
  {
    match icon
    case Picture => "\U{1F5BC}\U{FE0F}"
    case Film => "\U{1F3AC}"
    case Note => "\U{1F3B5}"
    case Pdf => "\U{1F4C4}"
    case Document => "\U{1F4DD}"
    case Chart => "\U{1F4CA}"
    case Archive => "\U{1F4E6}"
    case Folder => "\U{1F4C1}"
  }

  /** An image, video or sound type, each of which has an icon of its own. */
  predicate IsMediaType(fileType: string)
  {
    StartsWith(fileType, "image/") || StartsWith(fileType, "video/") || StartsWith(fileType, "audio/")
  }

  /** A spreadsheet type. */
  predicate NamesSpreadsheet(fileType: string)
  {
    Contains(fileType, "excel") || Contains(fileType, "spreadsheet")
  }

  /** An archive type. */
  predicate NamesArchive(fileType: string)
  {
    Contains(fileType, "zip") || Contains(fileType, "compressed")
  }

  /** `getFileIcon`: the first rule that applies, in the order image, video,
      audio, PDF, word processor, spreadsheet, archive; a type no rule
      matches gets the folder. */
  function FileIconOf(fileType: string): (r: FileIcon)
    ensures r == Picture <==> StartsWith(fileType, "image/")
    ensures r == Film <==> !StartsWith(fileType, "image/") && StartsWith(fileType, "video/")
    ensures r == Note <==>
      !StartsWith(fileType, "image/") && !StartsWith(fileType, "video/") && StartsWith(fileType, "audio/")
    ensures r == Pdf <==> !IsMediaType(fileType) && fileType == "application/pdf"
    ensures r == Document <==>
      !IsMediaType(fileType) && fileType != "application/pdf" && Contains(fileType, "word")
    ensures r == Chart <==>
      && !IsMediaType(fileType) && fileType != "application/pdf" && !Contains(fileType, "word")
      && NamesSpreadsheet(fileType)
    ensures r == Archive <==>
      && !IsMediaType(fileType) && fileType != "application/pdf" && !Contains(fileType, "word")
      && !NamesSpreadsheet(fileType) && NamesArchive(fileType)
    ensures r == Folder <==>
      && !IsMediaType(fileType) && fileType != "application/pdf" && !Contains(fileType, "word")
      && !NamesSpreadsheet(fileType) && !NamesArchive(fileType)
  {
    if StartsWith(fileType, "image/") then Picture
    else if StartsWith(fileType, "video/") then Film
    else if StartsWith(fileType, "audio/") then Note
    else if fileType == "application/pdf" then Pdf
    else if Contains(fileType, "word") then Document
    else if NamesSpreadsheet(fileType) then Chart
    else if NamesArchive(fileType) then Archive
    else Folder
  }

  /** A string that differs from the prefix at some position within both does not start with it. */
  lemma CharDiffers(s: string, prefix: string, k: nat)
    requires k < |s| && k < |prefix| && s[k] != prefix[k]
    ensures !StartsWith(s, prefix)
  {
    if |prefix| <= |s| {
      assert s[..|prefix|][k] != prefix[k];
    }
  }

  /** What a string contains, it still contains behind a prefix. */
  lemma ContainsBehind(prefix: string, s: string, part: string)
    requires Contains(s, part)
    ensures Contains(prefix + s, part)
  {
    ContainsIffOccurs(s, part);
    var i :| OccursAt(s, part, i);
    assert (prefix + s)[|prefix| + i..|prefix| + i + |part|] == s[i..i + |part|];
    assert OccursAt(prefix + s, part, |prefix| + i);
    ContainsIffOccurs(prefix + s, part);
  }

  /** Images, videos and sounds get their icon whatever the subtype. */
  lemma MediaIcons(subtype: string)
    ensures FileIconOf("image/" + subtype) == Picture
    ensures FileIconOf("video/" + subtype) == Film
    ensures FileIconOf("audio/" + subtype) == Note
  {
    assert ("image/" + subtype)[..6] == "image/";
    CharDiffers("video/" + subtype, "image/", 0);
    assert ("video/" + subtype)[..6] == "video/";
    CharDiffers("audio/" + subtype, "image/", 0);
    CharDiffers("audio/" + subtype, "video/", 0);
    assert ("audio/" + subtype)[..6] == "audio/";
  }

  /** Among application types, PDF has its own icon and any subtype naming
      `word` is a document, ahead of the spreadsheet and archive rules. */
  lemma ApplicationIcons(subtype: string)
    ensures FileIconOf("application/pdf") == Pdf
    ensures Contains(subtype, "word") && subtype != "pdf" ==>
      FileIconOf("application/" + subtype) == Document
  {
    var t := "application/" + subtype;
    CharDiffers("application/pdf", "image/", 0);
    CharDiffers("application/pdf", "video/", 0);
    CharDiffers("application/pdf", "audio/", 1);
    CharDiffers(t, "image/", 0);
    CharDiffers(t, "video/", 0);
    CharDiffers(t, "audio/", 1);
    if Contains(subtype, "word") && subtype != "pdf" {
      assert t != "application/pdf" by {
        assert t[12..] == subtype;
        assert "application/pdf"[12..] == "pdf";
      }
      ContainsBehind("application/", subtype, "word");
    }
  }

  /** The text before the first `/`, or everything when there is none. */
  function UpToSlash(s: string): (r: string)
    ensures r <= s
    ensures '/' !in r
    ensures |r| < |s| ==> s[|r|] == '/'
  {
    if s == [] || s[0] == '/' then [] else [s[0]] + UpToSlash(s[1..])
  }

  /** `fileType.split('/')[1] || fileType`: the part between the first and
      the second `/`, unless there is no `/` or that part is empty. */
  function TypeLabel(fileType: string): (r: string)
    ensures '/' !in fileType ==> r == fileType
  {
    var head := UpToSlash(fileType);
    if |head| == |fileType| then fileType
    else
      var second := UpToSlash(fileType[|head| + 1..]);
      if second == "" then fileType else second
  }

  /** For a type of the usual `type/subtype` form the label is the subtype. */
  lemma TypeLabelSubtype(kind: string, subtype: string)
    requires '/' !in kind && '/' !in subtype && subtype != ""
    ensures TypeLabel(kind + "/" + subtype) == subtype
  {
    var s := kind + "/" + subtype;
    assert s == kind + ("/" + subtype);
    UpToSlashOf(kind, "/" + subtype);
    assert UpToSlash(s) == kind && |kind| < |s|;
    assert s[|kind| + 1..] == subtype;
    UpToSlashOf(subtype, "");
    assert subtype + "" == subtype;
    assert UpToSlash(s[|kind| + 1..]) == subtype;
  }

  /** Cutting at the first `/` of `a + b` when `a` has none and `b` starts
      with one, or is empty. */
  lemma {:induction false} UpToSlashOf(a: string, b: string)
    requires '/' !in a && (b == [] || b[0] == '/')
    ensures UpToSlash(a + b) == a
  {
    if a != [] {
      assert (a + b)[1..] == a[1..] + b;
      UpToSlashOf(a[1..], b);
    } else {
      assert a + b == b;
    }
  }

  /** What the file part of the bubble shows. */
  datatype FileBody = Preview(url: string) | Info(typeLabel: string)

  datatype Content =
    | Text(text: string)
    | FileLink(url: string, icon: FileIcon, fileName: string, body: FileBody)

  datatype Bubble = Bubble(ownMessage: bool, username: Option<string>, content: Content, time: string)

  /** The bubble: the sender is named only on other people's messages; a
      message with a non-empty file URL is shown as a link to the file,
      with a preview for images. */
  function Render(m: LegacyMessage, isCurrentUser: bool): (r: Bubble)
    ensures r.username.Some? <==> !isCurrentUser
    ensures r.username.Some? ==> r.username.value == m.username
    ensures r.content.FileLink? <==> Truthy(m.fileUrl)
    ensures r.content.Text? ==> r.content.text == m.message
    ensures r.content.FileLink? ==>
      && r.content.url == m.fileUrl.value
      && r.content.icon == FileIconOf(m.fileType)
      && (r.content.body.Preview? <==> StartsWith(m.fileType, "image/"))
    ensures r.time == m.time
  {
    var name := if isCurrentUser then None else Some(m.username);
    var content :=
      if Truthy(m.fileUrl) then
        var body := if StartsWith(m.fileType, "image/") then Preview(m.fileUrl.value) else Info(TypeLabel(m.fileType));
        FileLink(m.fileUrl.value, FileIconOf(m.fileType), m.fileName, body)
      else Text(m.message);
    Bubble(isCurrentUser, name, content, m.time)
  }
}
