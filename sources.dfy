/**
 * Where a command takes its audio from. `audio file` (play) and `audio tag add` both accept an
 * uploaded file, a referenced message's file or a third kind of source, but they try them in
 * different orders: play tries the command's own attachment, then the referenced message, then
 * a stored tag; tag add tries the referenced message, then the command's own attachment, then a
 * remote URL, which it fetches and re-uploads.
 */
module Sources {
  import opened Wrappers
  import opened Validation
  import opened Tags

  /** A chat message as these commands see it: its attachments, in order. */
  datatype Message = Message(attachments: seq<Attachment>)

  /** The first attachment of a referenced message, checked; an error when it has none. */
  function MessageFile(m: Message): (r: Result<Attachment, SourceError>)
    ensures r == Err(NoAttachmentOnMessage) <==> |m.attachments| == 0
    ensures |m.attachments| > 0 ==> r == CheckAttachment(m.attachments[0])
  {
    if |m.attachments| == 0 then Err(NoAttachmentOnMessage) else CheckAttachment(m.attachments[0])
  }

  // ---------------------------------------------------------------------------------------
  // Play

  /**
   * The arguments of `audio file`: the command message's own attachments, the optional
   * referenced message and the optional tag name.
   */
  datatype PlayRequest = PlayRequest(attachments: seq<Attachment>, referenced: Option<Message>, tagName: Option<string>)

  /** What gets played: an uploaded file, or a stored tag. */
  datatype PlayFile = UploadedFile(attachment: Attachment) | StoredTag(file: TagAttachment)

  /**
   * The source selection of `play_audio_file`: the command's own first attachment if it has
   * any, else the referenced message's first attachment, else the named tag of this guild.
   */
  function SelectPlaySource(req: PlayRequest, guild: GuildId, store: Store): (r: Result<PlayFile, SourceError>)
    ensures r.Ok? && r.value.UploadedFile? ==>
      && HasAudioExtension(r.value.attachment.filename)
      && r.value.attachment.size <= FilesizeLimit
      && (if |req.attachments| > 0 then r.value.attachment == req.attachments[0]
          else (req.referenced.Some? && |req.referenced.value.attachments| > 0
                && r.value.attachment == req.referenced.value.attachments[0]))
    ensures r.Ok? && r.value.StoredTag? ==>
      && |req.attachments| == 0 && req.referenced.None? && req.tagName.Some?
      && TagKey(guild, req.tagName.value) in store
      && r.value.file == MakeTagAttachment(store[TagKey(guild, req.tagName.value)])
    ensures && |req.attachments| == 0 && req.referenced.None? && req.tagName.Some?
            && TagKey(guild, req.tagName.value) in store ==>
      r == Ok(StoredTag(MakeTagAttachment(store[TagKey(guild, req.tagName.value)])))
    ensures r == Err(NoAttachmentOnMessage) <==>
      |req.attachments| == 0 && req.referenced.Some? && |req.referenced.value.attachments| == 0
    ensures r == Err(TagNotFound) <==>
      && |req.attachments| == 0 && req.referenced.None? && req.tagName.Some?
      && TagKey(guild, req.tagName.value) !in store
    ensures r == Err(NoSourceGiven) <==>
      |req.attachments| == 0 && req.referenced.None? && req.tagName.None?
    ensures |req.attachments| > 0 ==>
      var checked := CheckAttachment(req.attachments[0]);
      r == if checked.Ok? then Ok(UploadedFile(req.attachments[0])) else Err(checked.error)
    ensures |req.attachments| == 0 && req.referenced.Some? ==>
      var file := MessageFile(req.referenced.value);
      r == if file.Ok? then Ok(UploadedFile(req.referenced.value.attachments[0])) else Err(file.error)
  {
    if |req.attachments| > 0 then
      match CheckAttachment(req.attachments[0])
      case Ok(a) => Ok(UploadedFile(a))
      case Err(e) => Err(e)
    else if req.referenced.Some? then
      match MessageFile(req.referenced.value)
      case Ok(a) => Ok(UploadedFile(a))
      case Err(e) => Err(e)
    else if req.tagName.Some? then
      match Lookup(store, guild, req.tagName.value)
      case Some(tag) => Ok(StoredTag(MakeTagAttachment(tag)))
      case None => Err(TagNotFound)
    else
      Err(NoSourceGiven)
  }

  /** With an attachment on the command itself, play ignores the referenced message and the tag. */
  lemma PlayOwnAttachmentFirst(req: PlayRequest, guild: GuildId, store: Store,
                               referenced: Option<Message>, tagName: Option<string>, guild': GuildId, store': Store)
    requires |req.attachments| > 0
    ensures SelectPlaySource(req, guild, store)
         == SelectPlaySource(PlayRequest(req.attachments, referenced, tagName), guild', store')
  {
  }

  /** Without one, a referenced message decides the outcome and the tag is not looked up. */
  lemma PlayMessageBeforeTag(req: PlayRequest, guild: GuildId, store: Store,
                             tagName: Option<string>, guild': GuildId, store': Store)
    requires |req.attachments| == 0 && req.referenced.Some?
    ensures SelectPlaySource(req, guild, store)
         == SelectPlaySource(PlayRequest([], req.referenced, tagName), guild', store')
  {
  }

  // ---------------------------------------------------------------------------------------
  // Tag add

  /**
   * The source arguments of `audio tag add`: the optional referenced message, the command
   * message's own attachments and the optional URL.
   */
  datatype TagAddRequest = TagAddRequest(referenced: Option<Message>, attachments: seq<Attachment>, url: Option<string>)

  /** Where a new tag's audio comes from: an uploaded file's URL, or a remote URL to fetch. */
  datatype TagSource = AttachmentSource(url: string) | RemoteSource(url: string)

  /**
   * The source selection of `voice_tag_add`: the referenced message if given, else the
   * command's own first attachment, else a URL that matches the pattern.
   */
  function SelectTagSource(req: TagAddRequest): (r: Result<TagSource, SourceError>)
    ensures r.Ok? && r.value.AttachmentSource? ==>
      if req.referenced.Some? then
        && |req.referenced.value.attachments| > 0
        && CheckAttachment(req.referenced.value.attachments[0]).Ok?
        && r.value.url == req.referenced.value.attachments[0].url
      else
        && |req.attachments| > 0
        && CheckAttachment(req.attachments[0]).Ok?
        && r.value.url == req.attachments[0].url
    ensures r.Ok? && r.value.RemoteSource? <==>
      req.referenced.None? && |req.attachments| == 0 && req.url.Some? && UrlMatches(req.url.value)
    ensures r.Ok? && r.value.RemoteSource? ==> r.value.url == req.url.value
    ensures r == Err(NoAttachmentOnMessage) <==>
      req.referenced.Some? && |req.referenced.value.attachments| == 0
    ensures r == Err(NoSourceGiven) <==>
      req.referenced.None? && |req.attachments| == 0 && (req.url.None? || !UrlMatches(req.url.value))
    ensures req.referenced.Some? ==>
      var file := MessageFile(req.referenced.value);
      r == if file.Ok? then Ok(AttachmentSource(req.referenced.value.attachments[0].url)) else Err(file.error)
    ensures req.referenced.None? && |req.attachments| > 0 ==>
      var checked := CheckAttachment(req.attachments[0]);
      r == if checked.Ok? then Ok(AttachmentSource(req.attachments[0].url)) else Err(checked.error)
  {
    if req.referenced.Some? then
      match MessageFile(req.referenced.value)
      case Ok(a) => Ok(AttachmentSource(a.url))
      case Err(e) => Err(e)
    else if |req.attachments| > 0 then
      match CheckAttachment(req.attachments[0])
      case Ok(a) => Ok(AttachmentSource(a.url))
      case Err(e) => Err(e)
    else if req.url.Some? && UrlMatches(req.url.value) then
      Ok(RemoteSource(req.url.value))
    else
      Err(NoSourceGiven)
  }

  /** With a referenced message, tag add ignores the command's own attachments and the URL. */
  lemma TagAddMessageFirst(req: TagAddRequest, attachments: seq<Attachment>, url: Option<string>)
    requires req.referenced.Some?
    ensures SelectTagSource(req) == SelectTagSource(TagAddRequest(req.referenced, attachments, url))
  {
  }

  /**
   * The two commands rank their sources differently: given both an accepted attachment of its
   * own and a referenced message with an accepted attachment, play takes its own and tag add
   * takes the referenced one.
   */
  lemma PriorityDiffers(own: Attachment, other: Attachment, guild: GuildId, store: Store, tagName: Option<string>, url: Option<string>)
    requires CheckAttachment(own).Ok? && CheckAttachment(other).Ok?
    ensures SelectPlaySource(PlayRequest([own], Some(Message([other])), tagName), guild, store) == Ok(UploadedFile(own))
    ensures SelectTagSource(TagAddRequest(Some(Message([other])), [own], url)) == Ok(AttachmentSource(other.url))
  {
  }

  /** The answer of the server a remote URL was fetched from: status and body length in bytes. */
  datatype HttpResponse = HttpResponse(status: int, bodyLength: nat)

  /**
   * The audio URL a new tag will store and, for a fetched URL, the file name under which the
   * fetched bytes were re-uploaded.
   */
  datatype TagAudio = TagAudio(audioUrl: string, reuploadName: Option<string>)

  /**
   * The whole "audio url" stage of `voice_tag_add`. The response, the upload identifier
   * (`uuid4()`) and the URL the chat service gives the re-uploaded file are parameters; they
   * matter only when a remote URL was chosen.
   */
  function ResolveTagAudio(req: TagAddRequest, response: HttpResponse, uploadId: string, uploadedUrl: string)
    : (r: Result<TagAudio, SourceError>)
    ensures SelectTagSource(req).Err? ==> r == Err(SelectTagSource(req).error)
    ensures SelectTagSource(req).Ok? && SelectTagSource(req).value.AttachmentSource? ==>
      r == Ok(TagAudio(SelectTagSource(req).value.url, None))
    ensures SelectTagSource(req).Ok? && SelectTagSource(req).value.RemoteSource? ==>
      var url := SelectTagSource(req).value.url;
      && (r.Ok? <==> StatusIsSuccess(response.status) && response.bodyLength <= FilesizeLimit)
      && (r == Err(FetchFailed) <==> !StatusIsSuccess(response.status))
      && (r == Err(SizeLimitExceeded) <==>
            StatusIsSuccess(response.status) && response.bodyLength > FilesizeLimit)
      && (r.Ok? ==>
            && r.value.audioUrl == uploadedUrl
            && r.value.reuploadName == Some(ReuploadFilename(uploadId, url))
            && StartsWith(r.value.reuploadName.value, uploadId + ".")
            && EndsWith(r.value.reuploadName.value, "." + LastDotSegment(url)))
  {
    match SelectTagSource(req)
    case Err(e) => Err(e)
    case Ok(AttachmentSource(url)) => Ok(TagAudio(url, None))
    case Ok(RemoteSource(url)) =>
      match CheckResponse(response.status, response.bodyLength)
      case Some(e) => Err(e)
      case None => Ok(TagAudio(uploadedUrl, Some(ReuploadFilename(uploadId, url))))
  }

  /** Tag add resets its cooldown on a refusal only when the file had the wrong extension. */
  function TagAddResetsCooldown(e: SourceError): bool {
    e == UnsupportedExtension
  }

  /** Play resets its cooldown on every refusal of its source except an oversize file. */
  function PlayResetsCooldown(e: SourceError): bool {
    e != SizeLimitExceeded
  }

  /**
   * Play, for any request whose chosen file is an attachment (its own, or else the referenced
   * message's first): a bad extension is refused as such and resets the cooldown; a file with
   * a good extension over the limit is refused as oversize and keeps the cooldown running.
   */
  lemma PlayAttachmentCooldown(req: PlayRequest, guild: GuildId, store: Store)
    requires |req.attachments| > 0 || (req.referenced.Some? && |req.referenced.value.attachments| > 0)
    ensures var a := if |req.attachments| > 0 then req.attachments[0] else req.referenced.value.attachments[0];
      && (!HasAudioExtension(a.filename) ==>
            SelectPlaySource(req, guild, store) == Err(UnsupportedExtension) && PlayResetsCooldown(UnsupportedExtension))
      && (HasAudioExtension(a.filename) && a.size > FilesizeLimit ==>
            SelectPlaySource(req, guild, store) == Err(SizeLimitExceeded) && !PlayResetsCooldown(SizeLimitExceeded))
  {
  }

  /**
   * Tag add, for any request whose chosen file is an attachment (the referenced message's
   * first, or else its own): a bad extension resets the cooldown, an oversize file does not,
   * and in both cases the store is left as it was.
   */
  lemma TagAddAttachmentCooldown(store: Store, guild: GuildId, owner: UserId, name: string, req: TagAddRequest,
                                 response: HttpResponse, uploadId: string, uploadedUrl: string)
    requires if req.referenced.Some? then |req.referenced.value.attachments| > 0 else |req.attachments| > 0
    ensures var a := if req.referenced.Some? then req.referenced.value.attachments[0] else req.attachments[0];
      var r := VoiceTagAdd(store, guild, owner, name, req, response, uploadId, uploadedUrl);
      && (!HasAudioExtension(a.filename) ==> r == (store, TagAddRejected(UnsupportedExtension, true)))
      && (HasAudioExtension(a.filename) && a.size > FilesizeLimit ==>
            r == (store, TagAddRejected(SizeLimitExceeded, false)))
  {
  }

  /** A fetched body over the limit is refused as oversize and does not reset the cooldown. */
  lemma TagAddRemoteOversize(store: Store, guild: GuildId, owner: UserId, name: string, url: string,
                             response: HttpResponse, uploadId: string, uploadedUrl: string)
    requires UrlMatches(url) && StatusIsSuccess(response.status) && response.bodyLength > FilesizeLimit
    ensures VoiceTagAdd(store, guild, owner, name, TagAddRequest(None, [], Some(url)), response, uploadId, uploadedUrl)
         == (store, TagAddRejected(SizeLimitExceeded, false))
  {
  }

  /** Result of `audio tag add`: refused (and whether the cooldown is reset), or stored. */
  datatype TagAddOutcome = TagAddRejected(error: SourceError, resetCooldown: bool) | TagSaved(saved: AddOutcome)

  /**
   * `voice_tag_add` as a whole: resolve the audio URL, then insert or update the tag. A refusal
   * reports the resolution's error, leaves the store untouched and resets the command's
   * cooldown only for a bad extension.
   */
  function VoiceTagAdd(store: Store, guild: GuildId, owner: UserId, name: string, req: TagAddRequest,
                       response: HttpResponse, uploadId: string, uploadedUrl: string)
    : (r: (Store, TagAddOutcome))
    ensures r.1.TagAddRejected? <==> ResolveTagAudio(req, response, uploadId, uploadedUrl).Err?
    ensures r.1.TagAddRejected? ==> r.0 == store
    ensures r.1.TagAddRejected? ==> r.1.error == ResolveTagAudio(req, response, uploadId, uploadedUrl).error
    ensures r.1.TagAddRejected? ==> r.1.resetCooldown == TagAddResetsCooldown(r.1.error)
    ensures r.1.TagSaved? ==>
      var added := AddTag(store, guild, name, ResolveTagAudio(req, response, uploadId, uploadedUrl).value.audioUrl, owner);
      r.0 == added.0 && r.1.saved == added.1
  {
    match ResolveTagAudio(req, response, uploadId, uploadedUrl)
    case Err(e) => (store, TagAddRejected(e, TagAddResetsCooldown(e)))
    case Ok(audio) =>
      var added := AddTag(store, guild, name, audio.audioUrl, owner);
      (added.0, TagSaved(added.1))
  }

  /** `audio tag add` keeps every tag filed under its own guild and name. */
  lemma VoiceTagAddWellKeyed(store: Store, guild: GuildId, owner: UserId, name: string, req: TagAddRequest,
                             response: HttpResponse, uploadId: string, uploadedUrl: string)
    requires WellKeyed(store)
    ensures WellKeyed(VoiceTagAdd(store, guild, owner, name, req, response, uploadId, uploadedUrl).0)
  {
    var res := ResolveTagAudio(req, response, uploadId, uploadedUrl);
    if res.Ok? {
      AddTagWellKeyed(store, guild, name, res.value.audioUrl, owner);
    }
  }
}
