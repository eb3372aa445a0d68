/**
 * The named audio tags of `voice_tag`, `voice_tag_add` and `voice_tag_delete`: rows
 * (guild, name, audio URL, owner) kept unique per (guild, name), seen here as a map from that
 * key to the row; and `TagAttachment`, which turns a row into a playable file description.
 */
module Tags {
  import opened Wrappers
  import opened Validation

  type GuildId = int
  type UserId = int

  datatype TagKey = TagKey(guild: GuildId, name: string)

  /** One stored tag: the guild it belongs to, its name, the URL of its audio and who made it. */
  datatype AudioTag = AudioTag(guildId: GuildId, name: string, audioUrl: string, ownerId: UserId)

  type Store = map<TagKey, AudioTag>

  function KeyOf(tag: AudioTag): TagKey {
    TagKey(tag.guildId, tag.name)
  }

  /** Every row is filed under the key made of its own guild and name. */
  ghost predicate WellKeyed(store: Store) {
    forall k :: k in store ==> KeyOf(store[k]) == k
  }

  /** `select_audio_tag(guild, name)` followed by `.first()`. */
  function Lookup(store: Store, guild: GuildId, name: string): (r: Option<AudioTag>)
    ensures r.Some? <==> TagKey(guild, name) in store
    ensures r.Some? ==> r.value == store[TagKey(guild, name)]
    ensures r.Some? && WellKeyed(store) ==> r.value.guildId == guild && r.value.name == name
  {
    var key := TagKey(guild, name);
    if key in store then Some(store[key]) else None
  }

  datatype AddOutcome = TagAdded | TagUpdated

  /**
   * The insert-or-update of `voice_tag_add`: a new (guild, name) gets a fresh row owned by the
   * caller; an existing one keeps its row, owner included, and only its audio URL changes.
   */
  function AddTag(store: Store, guild: GuildId, name: string, audioUrl: string, owner: UserId)
    : (r: (Store, AddOutcome))
    ensures r.0.Keys == store.Keys + {TagKey(guild, name)}
    ensures forall k :: k in store && k != TagKey(guild, name) ==> r.0[k] == store[k]
    ensures r.1 == TagAdded <==> TagKey(guild, name) !in store
    ensures TagKey(guild, name) !in store ==>
      r.0[TagKey(guild, name)] == AudioTag(guild, name, audioUrl, owner)
    ensures TagKey(guild, name) in store ==>
      r.0[TagKey(guild, name)] == store[TagKey(guild, name)].(audioUrl := audioUrl)
  {
    var key := TagKey(guild, name);
    if key !in store then (store[key := AudioTag(guild, name, audioUrl, owner)], TagAdded)
    else (store[key := store[key].(audioUrl := audioUrl)], TagUpdated)
  }

  lemma AddTagWellKeyed(store: Store, guild: GuildId, name: string, audioUrl: string, owner: UserId)
    requires WellKeyed(store)
    ensures WellKeyed(AddTag(store, guild, name, audioUrl, owner).0)
  {
  }

  /**
   * After an add, looking the name up yields the new URL; the owner is the caller for a new
   * tag and the original owner for an updated one.
   */
  lemma AddThenLookup(store: Store, guild: GuildId, name: string, audioUrl: string, owner: UserId)
    ensures Lookup(AddTag(store, guild, name, audioUrl, owner).0, guild, name).Some?
    ensures Lookup(AddTag(store, guild, name, audioUrl, owner).0, guild, name).value.audioUrl == audioUrl
    ensures Lookup(AddTag(store, guild, name, audioUrl, owner).0, guild, name).value.ownerId
      == if TagKey(guild, name) in store then store[TagKey(guild, name)].ownerId else owner
  {
  }

  /** Repeating an add changes nothing more and reports an update. */
  lemma AddTagTwice(store: Store, guild: GuildId, name: string, audioUrl: string, owner: UserId, other: UserId)
    ensures var once := AddTag(store, guild, name, audioUrl, owner).0;
      AddTag(once, guild, name, audioUrl, other) == (once, TagUpdated)
  {
    var once := AddTag(store, guild, name, audioUrl, owner).0;
    var key := TagKey(guild, name);
    assert once[key].audioUrl == audioUrl;
    assert once[key := once[key].(audioUrl := audioUrl)] == once;
  }

  datatype DeleteOutcome = TagDeleted | TagMissing

  /** `voice_tag_delete`: removing an absent name is an error and leaves the store as it was. */
  function DeleteTag(store: Store, guild: GuildId, name: string): (r: (Store, DeleteOutcome))
    ensures r.1 == TagMissing <==> TagKey(guild, name) !in store
    ensures r.1 == TagMissing ==> r.0 == store
    ensures r.0.Keys == store.Keys - {TagKey(guild, name)}
    ensures forall k :: k in r.0 ==> r.0[k] == store[k]
  {
    var key := TagKey(guild, name);
    if key !in store then (store, TagMissing) else (store - {key}, TagDeleted)
  }

  lemma DeleteTagWellKeyed(store: Store, guild: GuildId, name: string)
    requires WellKeyed(store)
    ensures WellKeyed(DeleteTag(store, guild, name).0)
  {
  }

  /** Deleting a name that was just added as new restores the store it was added to. */
  lemma DeleteUndoesAdd(store: Store, guild: GuildId, name: string, audioUrl: string, owner: UserId)
    requires TagKey(guild, name) !in store
    ensures DeleteTag(AddTag(store, guild, name, audioUrl, owner).0, guild, name) == (store, TagDeleted)
  {
    var added := AddTag(store, guild, name, audioUrl, owner).0;
    assert added - {TagKey(guild, name)} == store;
  }

  /** A second delete of the same name finds nothing. */
  lemma DeleteTwice(store: Store, guild: GuildId, name: string)
    ensures DeleteTag(DeleteTag(store, guild, name).0, guild, name).1 == TagMissing
  {
  }

  datatype ListError = NoTags

  /** `voice_tag`: the names of the guild's tags, or an error when the guild has none. */
  function ListTags(store: Store, guild: GuildId): (r: Result<set<string>, ListError>)
    ensures r.Err? <==> forall k :: k in store ==> k.guild != guild
    ensures r.Ok? ==> forall name :: name in r.value <==> TagKey(guild, name) in store
  {
    var names := set k | k in store && k.guild == guild :: k.name;
    if names == {} then
      assert forall k :: k in store ==> k.guild != guild by {
        forall k | k in store ensures k.guild != guild {
          assert k.guild == guild ==> k.name in names;
        }
      }
      Err(NoTags)
    else
      assert forall name :: name in names ==> TagKey(guild, name) in store;
      Ok(names)
  }

  // ---------------------------------------------------------------------------------------
  // TagAttachment

  /** A stored tag seen as a playable file: its file type, a file name and its URL. */
  datatype TagAttachment = TagAttachment(tag: AudioTag, filetype: string, filename: string, url: string)

  /**
   * `TagAttachment(audio_tag)`: the file type is the text after the last '.' of the audio URL,
   * the file name is the tag's name, a '.' and that type, and the URL is the stored one.
   */
  function MakeTagAttachment(tag: AudioTag): (a: TagAttachment)
    ensures a.tag == tag && a.url == tag.audioUrl
    ensures '.' !in a.filetype && EndsWith(tag.audioUrl, a.filetype)
    ensures EndsWith(tag.audioUrl, "." + a.filetype) || a.filetype == tag.audioUrl
    ensures a.filename == tag.name + "." + a.filetype
    ensures LastDotSegment(a.filename) == LastDotSegment(tag.audioUrl)
  {
    var filetype := LastDotSegment(tag.audioUrl);
    DotJoin(tag.name, filetype);
    LastDotSegmentFollowsDot(tag.audioUrl);
    TagAttachment(tag, filetype, tag.name + "." + filetype, tag.audioUrl)
  }

  /** A tag whose URL ends in ".mp3" or ".wav" is played under a file name with that ending. */
  lemma TagFileKeepsAudioExtension(tag: AudioTag)
    requires HasAudioExtension(tag.audioUrl)
    ensures HasAudioExtension(MakeTagAttachment(tag).filename)
  {
    var ext := AudioExtensionSegment(tag.audioUrl);
    DotJoin(tag.name, ext);
    assert "." + ext == ".mp3" || "." + ext == ".wav";
  }
}
