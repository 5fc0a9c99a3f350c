/**
 * The Discord channel adapter's pure helpers and its small in-memory state:
 * outbound text truncation, the MIME-to-extension table, data-URL decoding,
 * the outbound attachment source order, mention detection, inbound
 * attachment classification, the TTL de-duplication cache of inbound
 * message ids and the per-token handler and session registries.
 */
module Discord {
  import opened Wrappers
  import opened Text
  import Json
  import opened Base64

  // ---------------------------------------------------------------------
  // Outbound text

  /** Discord's message length limit, counted in UTF-8 bytes as Go's len does. */
  const MaxLength: nat := 2000

  /** "..." in UTF-8. */
  const Ellipsis: seq<byte> := [46, 46, 46]

  /** U+200B ZERO WIDTH SPACE in UTF-8, sent as the content of a files-only message. */
  const ZeroWidthSpace: seq<byte> := [0xE2, 0x80, 0x8B]

  /** The error for a message with neither content nor attachments. */
  const EmptyMessage: string := "cannot send empty message: no content and no valid attachments"

  /** truncateDiscordText, on the UTF-8 bytes of the text. */
  function Truncate(text: seq<byte>): (r: seq<byte>)
    ensures |r| <= MaxLength
    ensures |text| <= MaxLength ==> r == text
    ensures |text| > MaxLength ==> |r| == MaxLength && r[..MaxLength - 3] == text[..MaxLength - 3]
    ensures |text| > MaxLength ==> r[MaxLength - 3..] == Ellipsis
  {
    if |text| > MaxLength then text[..MaxLength - 3] + Ellipsis else text
  }

  /** Truncated text is within the limit, so truncating again changes nothing. */
  lemma TruncateIdempotent(text: seq<byte>)
    ensures Truncate(Truncate(text)) == Truncate(text)
  {
  }

  /** Text is left alone exactly when it fits. */
  lemma TruncateUnchangedIff(text: seq<byte>)
    ensures Truncate(text) == text <==> |text| <= MaxLength
  {
  }

  // ---------------------------------------------------------------------
  // MIME types

  /** mimeExtension: the file extension for the common MIME types, "" otherwise. */
  function MimeExtension(mime: string): (ext: string)
    ensures ext == "" || (|ext| >= 4 && ext[0] == '.')
  {
    match mime
    case "image/jpeg" => ".jpg"
    case "image/jpg" => ".jpg"
    case "image/png" => ".png"
    case "image/gif" => ".gif"
    case "image/webp" => ".webp"
    case "video/mp4" => ".mp4"
    case "video/webm" => ".webm"
    case "audio/mpeg" => ".mp3"
    case "audio/mp3" => ".mp3"
    case "audio/ogg" => ".ogg"
    case "audio/wav" => ".wav"
    case "application/pdf" => ".pdf"
    case "text/plain" => ".txt"
    case _ => ""
  }

  /** The same table as a map, an independent statement of which types are known. */
  const ExtensionTable: map<string, string> := map[
    "image/jpeg" := ".jpg", "image/jpg" := ".jpg", "image/png" := ".png",
    "image/gif" := ".gif", "image/webp" := ".webp", "video/mp4" := ".mp4",
    "video/webm" := ".webm", "audio/mpeg" := ".mp3", "audio/mp3" := ".mp3",
    "audio/ogg" := ".ogg", "audio/wav" := ".wav", "application/pdf" := ".pdf",
    "text/plain" := ".txt"]

  /** The lookup is total: a table entry for the known types and "" for every other. */
  lemma MimeExtensionIsTable(mime: string)
    ensures mime in ExtensionTable ==> MimeExtension(mime) == ExtensionTable[mime]
    ensures mime !in ExtensionTable ==> MimeExtension(mime) == ""
  {
  }

  /** Aliases share an extension, and the adapter's test cases hold. */
  lemma MimeExtensionCases()
    ensures MimeExtension("image/jpeg") == MimeExtension("image/jpg") == ".jpg"
    ensures MimeExtension("audio/mpeg") == MimeExtension("audio/mp3") == ".mp3"
    ensures MimeExtension("image/png") == ".png" && MimeExtension("image/gif") == ".gif"
    ensures MimeExtension("video/mp4") == ".mp4" && MimeExtension("application/pdf") == ".pdf"
    ensures MimeExtension("unknown/type") == ""
  {
  }

  /** The attachment name fallback: "attachment" plus the MIME extension when the name is empty. */
  function AttachmentName(name: string, mime: string): (r: string)
    ensures r != ""
    ensures name != "" ==> r == name
    ensures name == "" ==> HasPrefix(r, "attachment") && r[|"attachment"|..] == MimeExtension(mime)
  {
    if name == "" then "attachment" + MimeExtension(mime) else name
  }

  // ---------------------------------------------------------------------
  // Data URLs

  datatype DataUrlError = InvalidDataUrl | Corrupt(CorruptInput)

  /** The index of the first comma, when there is one. */
  function FirstComma(s: string): (r: Option<nat>)
    ensures r.None? <==> ',' !in s
    ensures r.Some? ==> r.value < |s| && s[r.value] == ',' && ',' !in s[..r.value]
  {
    if s == [] then None
    else if s[0] == ',' then Some(0)
    else match FirstComma(s[1..])
      case None => None
      case Some(i) => assert s[..i + 1] == [s[0]] + s[1..][..i]; Some(i + 1)
  }

  /**
   * base64DataURLToBytes: strings.SplitN(url, ",", 2) and standard base64
   * decoding of the second part. The media-type part before the comma is not
   * examined.
   */
  function DataUrlBytes(url: string): (r: Result<seq<byte>, DataUrlError>)
    ensures r == Err(InvalidDataUrl) <==> ',' !in url
  {
    match FirstComma(url)
    case None => Err(InvalidDataUrl)
    case Some(i) =>
      match DecodeString(url[i + 1..])
      case Ok(data) => Ok(data)
      case Err(e) => Err(Corrupt(e))
  }

  /** Everything after the first comma is decoded, whatever follows it. */
  lemma DataUrlSplit(header: string, body: string)
    requires ',' !in header
    ensures DataUrlBytes(header + "," + body)
            == match DecodeString(body)
               case Ok(data) => Ok(data)
               case Err(e) => Err(Corrupt(e))
  {
    var url := header + "," + body;
    assert FirstComma(url) == Some(|header|) by {
      assert url[..|header|] == header;
      FirstCommaAt(url, |header|);
    }
    assert url[|header| + 1..] == body;
  }

  /** A data URL built from any comma-free header and encoded bytes yields those bytes back. */
  lemma DataUrlRoundTrip(header: string, data: seq<byte>)
    requires ',' !in header
    ensures DataUrlBytes(header + "," + Encode(data)) == Ok(data)
  {
    DataUrlSplit(header, Encode(data));
    DecodeEncode(data);
  }

  /** The adapter's test cases. */
  lemma DataUrlHello()
    ensures DataUrlBytes("data:text/plain;base64,SGVsbG8=") == Ok([72, 101, 108, 108, 111])
  {
    var header, body := "data:text/plain;base64", "SGVsbG8=";
    assert ',' !in header;
    assert header + "," + body == "data:text/plain;base64,SGVsbG8=";
    DataUrlSplit(header, body);
    DecodeHello();
  }

  lemma DataUrlInvalid()
    ensures DataUrlBytes("invalid") == Err(InvalidDataUrl)
  {
    assert ',' !in "invalid";
  }

  /** The first comma is found where the string has a comma and none before it. */
  lemma FirstCommaAt(s: string, i: nat)
    requires i < |s| && s[i] == ',' && ',' !in s[..i]
    ensures FirstComma(s) == Some(i)
  {
  }

  // ---------------------------------------------------------------------
  // Outbound attachments

  /** The fields of a channel attachment that the conversion reads. */
  datatype OutAttachment = OutAttachment(
    name: string, mime: string, contentHash: string, base64: string, url: string,
    metadata: Json.Object)

  datatype File = File(name: string, data: seq<byte>)

  /**
   * The outside world the conversion consults: the asset store (absent when no
   * opener is configured; otherwise the bytes it opens for a bot id and a
   * content hash, or None when opening fails) and HTTP GET of a URL.
   */
  datatype Sources = Sources(
    opener: Option<(string, string) -> Option<seq<byte>>>,
    fetch: string -> Option<seq<byte>>)

  /** The bot id carried in the attachment's metadata, "" when absent or not a string. */
  function MetadataBotId(att: OutAttachment): (r: string)
    ensures r != "" ==> Json.StringAt(att.metadata, "bot_id") == Some(r)
  {
    Json.StringAt(att.metadata, "bot_id").GetOr("")
  }

  /** Bytes from the asset store, used only when non-empty. */
  function FromAssets(att: OutAttachment, src: Sources): Option<seq<byte>> {
    var botId := MetadataBotId(att);
    if att.contentHash != "" && botId != "" && src.opener.Some? then
      match src.opener.value(botId, att.contentHash)
      case Some(data) => if |data| > 0 then Some(data) else None
      case None => None
    else None
  }

  function FromBase64(att: OutAttachment): Option<seq<byte>> {
    if att.base64 == "" then None
    else match DataUrlBytes(att.base64)
      case Ok(data) => Some(data)
      case Err(_) => None
  }

  function FromUrl(att: OutAttachment, src: Sources): Option<seq<byte>> {
    if att.url == "" then None else src.fetch(att.url)
  }

  /**
   * discordAttachmentToFile: the asset store first, then the inline base64
   * data URL, then the URL; no file when none of them yields bytes.
   */
  function AttachmentFile(att: OutAttachment, src: Sources): (r: Option<File>)
    ensures r.Some? ==> r.value.name == AttachmentName(att.name, att.mime)
    ensures r.None? <==> FromAssets(att, src).None? && FromBase64(att).None? && FromUrl(att, src).None?
  {
    var name := AttachmentName(att.name, att.mime);
    match FromAssets(att, src)
    case Some(data) => Some(File(name, data))
    case None =>
      match FromBase64(att)
      case Some(data) => Some(File(name, data))
      case None =>
        match FromUrl(att, src)
        case Some(data) => Some(File(name, data))
        case None => None
  }

  /** Stored bytes win over inline data, and inline data wins over the URL. */
  lemma AttachmentSourcePriority(att: OutAttachment, src: Sources)
    ensures FromAssets(att, src).Some? ==> AttachmentFile(att, src).value.data == FromAssets(att, src).value
    ensures FromAssets(att, src).None? && FromBase64(att).Some? ==>
              AttachmentFile(att, src).value.data == FromBase64(att).value
    ensures FromAssets(att, src).None? && FromBase64(att).None? && FromUrl(att, src).Some? ==>
              AttachmentFile(att, src).value.data == FromUrl(att, src).value
  {
  }

  /** An attachment with a valid inline data URL and nothing stored is sent with the encoded bytes. */
  lemma InlineAttachmentSent(att: OutAttachment, src: Sources, header: string, data: seq<byte>)
    requires att.base64 == header + "," + Encode(data) && ',' !in header
    requires FromAssets(att, src).None?
    ensures AttachmentFile(att, src) == Some(File(AttachmentName(att.name, att.mime), data))
  {
    DataUrlRoundTrip(header, data);
  }

  /** The files of an outbound message: the attachments that convert, in order. */
  function FilesOf(atts: seq<OutAttachment>, src: Sources): (r: seq<File>)
    ensures |r| <= |atts|
  {
    if atts == [] then []
    else
      var rest := FilesOf(atts[..|atts| - 1], src);
      match AttachmentFile(atts[|atts| - 1], src)
      case Some(f) => rest + [f]
      case None => rest
  }

  datatype MessageSend = MessageSend(content: seq<byte>, files: seq<File>)

  /**
   * The body of sendDiscordMessage up to the API call: truncated content,
   * converted files, U+200B for a files-only message, and an error when there
   * is nothing to send.
   */
  method PrepareSend(text: seq<byte>, atts: seq<OutAttachment>, src: Sources)
    returns (r: Result<MessageSend, string>)
    ensures r.Ok? ==> r.value.files == FilesOf(atts, src)
    ensures r.Ok? ==> r.value.content == SendContent(text, |FilesOf(atts, src)|)
    ensures r.Err? <==> text == [] && FilesOf(atts, src) == []
    ensures r.Err? ==> r.error == EmptyMessage
  {
    var content := Truncate(text);
    var files: seq<File> := [];
    if |atts| > 0 {
      var i := 0;
      while i < |atts|
        invariant 0 <= i <= |atts|
        invariant files == FilesOf(atts[..i], src)
      {
        assert atts[..i + 1][..i] == atts[..i];
        var f := AttachmentFile(atts[i], src);
        if f.Some? {
          files := files + [f.value];
        }
        i := i + 1;
      }
      assert atts[..i] == atts;
      if content == [] && |files| > 0 {
        content := ZeroWidthSpace;
      }
    } else {
      assert FilesOf(atts, src) == [];
    }
    if content == [] && |files| == 0 {
      return Err(EmptyMessage);
    }
    return Ok(MessageSend(content, files));
  }

  /** The content a message is sent with, given how many files it carries. */
  function SendContent(text: seq<byte>, fileCount: nat): (r: seq<byte>)
    ensures |r| <= MaxLength
    ensures text != [] ==> r == Truncate(text)
    ensures text == [] && fileCount > 0 ==> r == ZeroWidthSpace
    ensures r == [] <==> text == [] && fileCount == 0
  {
    if text == [] && fileCount > 0 then ZeroWidthSpace else Truncate(text)
  }

  /** A message that is sent always carries non-empty content within the limit. */
  lemma SentContentNonEmpty(text: seq<byte>, fileCount: nat)
    requires text != [] || fileCount > 0
    ensures 0 < |SendContent(text, fileCount)| <= MaxLength
  {
  }

  // ---------------------------------------------------------------------
  // Inbound messages

  /** The fields of a discordgo.Message that the helpers read; a nil mention is None. */
  datatype InMessage = InMessage(
    mentions: seq<Option<string>>, mentionEveryone: bool, content: string,
    attachments: seq<InAttachment>)

  datatype InAttachment = InAttachment(
    id: string, url: string, filename: string, size: int, contentType: string,
    width: int, height: int)

  function MentionTag(botId: string): string { "<@" + botId + ">" }
  function NickMentionTag(botId: string): string { "<@!" + botId + ">" }

  /** isBotMentioned, with strings.ToLower restricted to ASCII letters. */
  function IsBotMentioned(msg: Option<InMessage>, botId: string): (r: bool)
    ensures msg.None? ==> !r
    ensures msg.Some? && msg.value.mentionEveryone ==> r
    ensures msg.Some? && Some(botId) in msg.value.mentions ==> r
  {
    match msg
    case None => false
    case Some(m) =>
      MentionedIn(m.mentions, botId) || m.mentionEveryone
      || Contains(Lower(m.content), Lower(MentionTag(botId)))
      || Contains(Lower(m.content), Lower(NickMentionTag(botId)))
  }

  /** The loop over the mention list, with its early return. */
  function MentionedIn(mentions: seq<Option<string>>, botId: string): (r: bool)
    ensures r <==> Some(botId) in mentions
  {
    if mentions == [] then false
    else if mentions[0] == Some(botId) then true
    else MentionedIn(mentions[1..], botId)
  }

  /** Lower-casing commutes with taking a slice. */
  lemma LowerSlice(s: string, i: int, j: int)
    requires 0 <= i <= j <= |s|
    ensures Lower(s)[i..j] == Lower(s[i..j])
  {
  }

  /** Content that spells the mention tag in any ASCII case mentions the bot. */
  lemma ContentMentionDetected(msg: InMessage, botId: string, k: nat)
    requires k + |MentionTag(botId)| <= |msg.content|
    requires EqualFold(msg.content[k..k + |MentionTag(botId)|], MentionTag(botId))
    ensures IsBotMentioned(Some(msg), botId)
  {
    var tag := Lower(MentionTag(botId));
    LowerSlice(msg.content, k, k + |tag|);
    assert OccursAt(Lower(msg.content), tag, k);
  }

  /** Without mentions, @everyone or a '<' in the content, the bot is not mentioned. */
  lemma PlainMessageNotMentioned(msg: InMessage, botId: string)
    requires msg.mentions == [] && !msg.mentionEveryone && '<' !in msg.content
    ensures !IsBotMentioned(Some(msg), botId)
  {
    var low := Lower(msg.content);
    assert '<' !in low by {
      forall i | 0 <= i < |low| ensures low[i] != '<' {
        assert low[i] == LowerChar(msg.content[i]);
      }
    }
    var tag1 := Lower(MentionTag(botId));
    var tag2 := Lower(NickMentionTag(botId));
    assert tag1[0] == '<' && tag2[0] == '<';
    forall i | 0 <= i <= |low| - |tag1| ensures !OccursAt(low, tag1, i) {
      assert low[i..i + |tag1|][0] == low[i] != tag1[0];
    }
    forall i | 0 <= i <= |low| - |tag2| ensures !OccursAt(low, tag2, i) {
      assert low[i..i + |tag2|][0] == low[i] != tag2[0];
    }
  }

  datatype AttachmentType = Image | Video | Audio | FileType

  /** A channel attachment; width and height stay zero unless the attachment is an image. */
  datatype Attachment = Attachment(
    kind: AttachmentType, url: string, platformKey: string, sourcePlatform: string,
    name: string, size: int, width: int, height: int)

  /** One iteration of collectAttachments: classification by content-type prefix. */
  function AttachmentOf(att: InAttachment): (r: Attachment)
    ensures r.kind == Image <==> HasPrefix(att.contentType, "image/")
    ensures r.kind == Video <==> HasPrefix(att.contentType, "video/")
    ensures r.kind == Audio <==> HasPrefix(att.contentType, "audio/")
    ensures r.width == (if r.kind == Image then att.width else 0)
    ensures r.height == (if r.kind == Image then att.height else 0)
    ensures r.url == att.url && r.platformKey == att.id && r.name == att.filename && r.size == att.size
    ensures r.sourcePlatform == "discord"
  {
    var base := Attachment(FileType, att.url, att.id, "discord", att.filename, att.size, 0, 0);
    if att.contentType == "" then base
    else if HasPrefix(att.contentType, "image/") then
      base.(kind := Image, width := att.width, height := att.height)
    else if HasPrefix(att.contentType, "video/") then base.(kind := Video)
    else if HasPrefix(att.contentType, "audio/") then base.(kind := Audio)
    else base
  }

  /** collectAttachments: one converted attachment per input, in order (nil for no message). */
  method CollectAttachments(msg: Option<InMessage>) returns (r: seq<Attachment>)
    ensures msg.None? ==> r == []
    ensures msg.Some? ==> |r| == |msg.value.attachments|
    ensures msg.Some? ==> forall i :: 0 <= i < |r| ==> r[i] == AttachmentOf(msg.value.attachments[i])
  {
    if msg.None? || |msg.value.attachments| == 0 {
      return [];
    }
    var atts := msg.value.attachments;
    r := [];
    var i := 0;
    while i < |atts|
      invariant 0 <= i <= |atts|
      invariant |r| == i
      invariant forall j :: 0 <= j < i ==> r[j] == AttachmentOf(atts[j])
    {
      r := r + [AttachmentOf(atts[i])];
      i := i + 1;
    }
  }

  // ---------------------------------------------------------------------
  // Inbound de-duplication

  /** inboundDedupTTL: one minute, in nanoseconds. */
  const DedupTtl: int := 60_000_000_000

  function SeenKey(token: string, messageId: string): string {
    token + ":" + messageId
  }

  /** The entries the eviction loop keeps: those not strictly before the cutoff. */
  function Live(seen: map<string, int>, cutoff: int): (r: map<string, int>)
    ensures forall k :: k in r <==> k in seen && seen[k] >= cutoff
    ensures forall k :: k in r ==> r[k] == seen[k]
  {
    map k | k in seen && seen[k] >= cutoff :: seen[k]
  }

  /**
   * isDuplicateInbound as a function of the cache and the clock: whether the
   * message is a duplicate, and the cache afterwards.
   */
  function Dedup(seen: map<string, int>, token: string, messageId: string, now: int): (r: (bool, map<string, int>))
    ensures GoTrim(token) == "" || GoTrim(messageId) == "" ==> r == (false, seen)
    ensures GoTrim(token) != "" && GoTrim(messageId) != "" ==>
              r.0 == (SeenKey(token, messageId) in Live(seen, now - DedupTtl))
    ensures r.1.Keys <= seen.Keys + {SeenKey(token, messageId)}
  {
    if GoTrim(token) == "" || GoTrim(messageId) == "" then (false, seen)
    else
      var kept := Live(seen, now - DedupTtl);
      var key := SeenKey(token, messageId);
      if key in kept then (true, kept) else (false, kept[key := now])
  }

  /**
   * A message accepted once is a duplicate when it arrives again within the
   * TTL. (A repeat does not refresh the recorded time, so the TTL runs from
   * the accepted sighting.)
   */
  lemma RepeatWithinTtlIsDuplicate(seen: map<string, int>, token: string, messageId: string, now: int, later: int)
    requires GoTrim(token) != "" && GoTrim(messageId) != ""
    requires SeenKey(token, messageId) !in Live(seen, now - DedupTtl)
    requires now <= later <= now + DedupTtl
    ensures Dedup(Dedup(seen, token, messageId, now).1, token, messageId, later).0
  {
    var key := SeenKey(token, messageId);
    var after := Dedup(seen, token, messageId, now).1;
    assert key in after && after[key] >= now;
  }

  /** A fresh sighting is never a duplicate, and is recorded at the current time. */
  lemma FirstSightingRecorded(seen: map<string, int>, token: string, messageId: string, now: int)
    requires GoTrim(token) != "" && GoTrim(messageId) != ""
    requires SeenKey(token, messageId) !in seen
    ensures !Dedup(seen, token, messageId, now).0
    ensures Dedup(seen, token, messageId, now).1 == Live(seen, now - DedupTtl)[SeenKey(token, messageId) := now]
  {
  }

  /** Once the TTL has passed without a repeat, the message is accepted again. */
  lemma RepeatAfterTtlAccepted(seen: map<string, int>, token: string, messageId: string, now: int, later: int)
    requires GoTrim(token) != "" && GoTrim(messageId) != ""
    requires SeenKey(token, messageId) !in seen
    requires later > now + DedupTtl
    ensures !Dedup(Dedup(seen, token, messageId, now).1, token, messageId, later).0
  {
  }

  /** The adapter's maps; the session value and handler removers are opaque ids. */
  class Adapter {
    var seenMessages: map<string, int>
    var sessions: map<string, Session>
    var handlerRemovers: map<string, Remover>
    /** The removers invoked so far, in order, standing for the calls of the Go closures. */
    var removed: seq<Remover>

    constructor()
      ensures seenMessages == map[] && sessions == map[] && handlerRemovers == map[] && removed == []
    {
      seenMessages := map[];
      sessions := map[];
      handlerRemovers := map[];
      removed := [];
    }

    /** isDuplicateInbound, with the clock passed in. */
    method IsDuplicateInbound(token: string, messageId: string, now: int) returns (dup: bool)
      modifies this
      ensures (dup, seenMessages) == Dedup(old(seenMessages), token, messageId, now)
      ensures sessions == old(sessions) && handlerRemovers == old(handlerRemovers) && removed == old(removed)
    {
      if GoTrim(token) == "" || GoTrim(messageId) == "" {
        return false;
      }
      EvictExpired(now - DedupTtl);
      var key := SeenKey(token, messageId);
      if key in seenMessages {
        return true;
      }
      seenMessages := seenMessages[key := now];
      return false;
    }

    /** The eviction loop of isDuplicateInbound: deletes every entry recorded strictly before the cutoff. */
    method EvictExpired(cutoff: int)
      modifies this`seenMessages
      ensures seenMessages == Live(old(seenMessages), cutoff)
    {
      ghost var original := seenMessages;
      var keys := seenMessages.Keys;
      while keys != {}
        invariant keys <= original.Keys
        invariant seenMessages.Keys <= original.Keys
        invariant forall k :: k in seenMessages ==> seenMessages[k] == original[k]
        invariant forall k :: k in keys ==> k in seenMessages
        invariant forall k :: k in original && k !in keys ==> (k in seenMessages <==> original[k] >= cutoff)
        decreases keys
      {
        var k :| k in keys;
        if seenMessages[k] < cutoff {
          seenMessages := seenMessages - {k};
        }
        keys := keys - {k};
      }
      assert seenMessages == Live(original, cutoff);
    }

    /** swapHandlerRemover: the previous remover for the token runs before it is replaced. */
    method SwapHandlerRemover(token: string, remove: Remover)
      modifies this
      ensures handlerRemovers == old(handlerRemovers)[token := remove]
      ensures removed == old(removed) + (if token in old(handlerRemovers) then [old(handlerRemovers)[token]] else [])
      ensures seenMessages == old(seenMessages) && sessions == old(sessions)
    {
      if token in handlerRemovers {
        removed := removed + [handlerRemovers[token]];
      }
      handlerRemovers := handlerRemovers[token := remove];
    }

    /** clearSessionState: forgets the token's session and handler, returning the handler's remover. */
    method ClearSessionState(token: string) returns (remove: Option<Remover>)
      modifies this
      ensures remove == (if token in old(handlerRemovers) then Some(old(handlerRemovers)[token]) else None)
      ensures handlerRemovers == old(handlerRemovers) - {token}
      ensures sessions == old(sessions) - {token}
      ensures seenMessages == old(seenMessages) && removed == old(removed)
    {
      remove := if token in handlerRemovers then Some(handlerRemovers[token]) else None;
      handlerRemovers := handlerRemovers - {token};
      sessions := sessions - {token};
    }

    /**
     * getOrCreateSession, run sequentially: the cached session for the token,
     * or a new one authorised with "Bot " + token; creation's failure is a
     * parameter.
     */
    method GetOrCreateSession(token: string, createError: Option<string>) returns (r: Result<Session, string>)
      modifies this
      ensures token in old(sessions) ==> r == Ok(old(sessions)[token]) && sessions == old(sessions)
      ensures token !in old(sessions) && createError.Some? ==> r == Err(createError.value) && sessions == old(sessions)
      ensures token !in old(sessions) && createError.None? ==>
                r == Ok(Session("Bot " + token)) && sessions == old(sessions)[token := r.value]
      ensures seenMessages == old(seenMessages) && handlerRemovers == old(handlerRemovers) && removed == old(removed)
    {
      if token in sessions {
        return Ok(sessions[token]);
      }
      if createError.Some? {
        return Err(createError.value);
      }
      var s := Session("Bot " + token);
      sessions := sessions[token := s];
      return Ok(s);
    }
  }

  /** A discordgo session, identified by its authorization header. */
  datatype Session = Session(authorization: string)

  /** A handler-removal closure, identified by an opaque id. */
  type Remover = nat

  /** Two swaps on one token: the first remover is called exactly when the second replaces it. */
  method SwapTwice(token: string, first: Remover, second: Remover) returns (a: Adapter)
    ensures fresh(a)
    ensures a.removed == [first] && a.handlerRemovers == map[token := second]
  {
    a := new Adapter();
    a.SwapHandlerRemover(token, first);
    a.SwapHandlerRemover(token, second);
  }
}
