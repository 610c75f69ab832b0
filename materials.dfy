/**
 * How the material handler classifies the admin's message (index.js:399-418),
 * which record it stores and what each recipient is sent (index.js:424-437).
 */
module Materials {
  import opened Wrappers
  import opened Strings
  import opened Records
  import opened Replies

  /** The outcome of the classification chain. */
  datatype Classified =
    | TextItem(text: string)
    | DocumentItem(fileName: Option<string>, fileId: string)
    | PhotoItem(fileId: string)
    | VideoItem(fileId: string)
    | EmptyPhoto    // a photo array with no sizes: indexing its last element throws
    | Unsupported   // none of text, document, photo, video

  /** The outcomes after which a material is stored and sent out. */
  predicate Stored(c: Classified) {
    !c.EmptyPhoto? && !c.Unsupported?
  }

  /**
   * The `if / else if` chain: non-empty text wins over a document, a document
   * over a photo, a photo over a video. A photo is the last (largest) size.
   */
  function Classify(msg: Message): (c: Classified)
    ensures c.TextItem? <==> Truthy(msg.text)
    ensures c.TextItem? ==> c.text == msg.text.value
    ensures c.DocumentItem? <==> !Truthy(msg.text) && msg.document.Some?
    ensures c.DocumentItem? ==> c.fileId == msg.document.value.fileId && c.fileName == msg.document.value.fileName
    ensures (c.PhotoItem? || c.EmptyPhoto?) <==> !Truthy(msg.text) && msg.document.None? && msg.photo.Some?
    ensures c.PhotoItem? ==> |msg.photo.value| > 0 && c.fileId == msg.photo.value[|msg.photo.value| - 1]
    ensures c.VideoItem? <==> !Truthy(msg.text) && msg.document.None? && msg.photo.None? && msg.video.Some?
    ensures c.VideoItem? ==> c.fileId == msg.video.value
    ensures c.Unsupported? <==> !Truthy(msg.text) && msg.document.None? && msg.photo.None? && msg.video.None?
  {
    if Truthy(msg.text) then TextItem(msg.text.value)
    else if msg.document.Some? then DocumentItem(msg.document.value.fileName, msg.document.value.fileId)
    else if msg.photo.Some? then
      (if |msg.photo.value| == 0 then EmptyPhoto else PhotoItem(msg.photo.value[|msg.photo.value| - 1]))
    else if msg.video.Some? then VideoItem(msg.video.value)
    else Unsupported
  }

  /** The file id of a stored non-text material. */
  function FileOf(c: Classified): string
    requires Stored(c) && !c.TextItem?
  {
    match c
    case DocumentItem(_, f) => f
    case PhotoItem(f) => f
    case VideoItem(f) => f
  }

  function KindOf(c: Classified): FileKind
    requires Stored(c) && !c.TextItem?
  {
    match c
    case DocumentItem(_, _) => DocumentFile
    case PhotoItem(_) => PhotoFile
    case VideoItem(_) => VideoFile
  }

  function TitleOf(c: Classified): Option<string>
    requires Stored(c)
  {
    match c
    case TextItem(_) => Some(TextMaterialTitle)
    case DocumentItem(n, _) => n
    case PhotoItem(_) => Some(PhotoTitle)
    case VideoItem(_) => Some(VideoTitle)
  }

  /**
   * The stored record: it goes to `group`, a text material keeps the text as
   * its description and has no file, any other keeps the default description
   * and its file id.
   */
  function MaterialOf(c: Classified, group: Option<string>): (m: Material)
    requires Stored(c)
    ensures m.group == group
    ensures m.description == if c.TextItem? then c.text else NoDescription
    ensures m.fileId.Some? <==> !c.TextItem?
    ensures m.fileId.Some? ==> m.fileId.value == FileOf(c)
  {
    Material(group, TitleOf(c), if c.TextItem? then c.text else NoDescription,
             if c.TextItem? then None else Some(FileOf(c)))
  }

  /**
   * What each recipient gets: one message "title:\ntext" for a text material;
   * otherwise a "title:" message followed by one file send of the right kind.
   */
  function Payloads(c: Classified): (ps: seq<Payload>)
    requires Stored(c)
    ensures c.TextItem? ==> ps == [Say(TextMaterialTitle + ":\n" + c.text)]
    ensures !c.TextItem? ==> |ps| == 2 && ps[0] == Say(Render(TitleOf(c)) + ":")
                             && ps[1] == File(KindOf(c), FileOf(c), None)
  {
    if c.TextItem? then [Say(Render(TitleOf(c)) + ":\n" + c.text)]
    else [Say(Render(TitleOf(c)) + ":"), File(KindOf(c), FileOf(c), None)]
  }
}
