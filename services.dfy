/**
  The external collaborators of the request handlers, as one world state:
  the identity provider's metadata bags, the `creations` table, the local
  staging directory, the generation providers and the object store. Each
  collaborator call that can fail is given its outcome by the caller; the
  world only records what was done to it.
 */
module Services {
  import opened JsValues

  type UserId = string
  type Path = string
  type Bytes = seq<bv8>

  /** The `type` column of a creation. */
  datatype Kind = Article | BlogTitle | Image | ResumeReview {
    function Name(): string {
      match this
      case Article => "article"
      case BlogTitle => "blog-title"
      case Image => "image"
      case ResumeReview => "resume-review"
    }
  }

  /** One row of the `creations` table; `likes` is None when the column is NULL. */
  datatype Creation = Creation(
    id: nat,
    userId: UserId,
    prompt: string,
    content: string,
    kind: Kind,
    publish: bool,
    likes: Option<seq<UserId>>,
    createdAt: int)

  /** The `max_tokens` of a completion request: `parseInt(length)` or a constant. */
  datatype TokenLimit = ParseIntOf(length: Value) | Limit(n: nat)

  /** A request issued to a generation provider. */
  datatype ProviderCall =
    | Completion(prompt: string, maxTokens: TokenLimit)  // text completion
    | TextToImage(prompt: string)                         // image generation
    | RemoveBackground(image: Path)                       // remove.bg

  /** An upload issued to the object store. */
  datatype Upload = FromFile(path: Path) | FromData(data: Bytes)

  /** What the object store answers to a successful upload. */
  datatype Stored = Stored(secureUrl: string, publicId: string)

  /** A file staged by the upload middleware: its path and declared size. */
  datatype StagedFile = StagedFile(path: Path, size: nat)

  /** The `message` of a response body: absent, a fixed text, or `err.message` of a caught error. */
  datatype Message = NoMessage | Text(text: string) | ErrorMessage

  /** A response: HTTP status and the JSON body `{success, content?, message?}`. */
  datatype Envelope = Envelope(status: int, success: bool, content: Option<string>, message: Message)

  function BadRequest(text: string): Envelope {
    Envelope(400, false, None, Text(text))
  }

  /** A business rejection: a normal 200 answer with `success: false`. */
  function Declined(text: string): Envelope {
    Envelope(200, false, None, Text(text))
  }

  function ServerError(m: Message): Envelope {
    Envelope(500, false, None, m)
  }

  function Delivered(content: string): Envelope {
    Envelope(200, true, Some(content), NoMessage)
  }

  /** The identity provider's merge of a metadata update into the stored bag: the update's
      keys overwrite, the other stored keys stay, and a key the update sets to null is deleted. */
  function MergeBag(stored: Bag, changes: Bag): (r: Bag)
    ensures forall k :: k in changes && changes[k] == Null ==> k !in r
    ensures forall k :: k in changes && changes[k] != Null ==> k in r && r[k] == changes[k]
    ensures forall k :: k in stored && k !in changes ==> k in r && r[k] == stored[k]
    ensures forall k :: k in r ==> k in stored || k in changes
  {
    map k | k in stored.Keys + changes.Keys && !(k in changes && changes[k] == Null)
      :: if k in changes then changes[k] else stored[k]
  }

  /** An update that sets nothing to null is a plain overwrite of its keys. */
  lemma MergeWithoutNull(stored: Bag, changes: Bag)
    requires forall k :: k in changes ==> changes[k] != Null
    ensures MergeBag(stored, changes) == stored + changes
  {
  }

  class World {
    var meta: map<UserId, Bag>        // identity provider: private metadata per principal
    var metadataUpdates: nat          // metadata update calls issued
    var creations: seq<Creation>      // the creations table, in insertion order
    var nextId: nat                   // the table's id sequence
    var files: set<Path>              // what exists in the staging directory
    var providerCalls: seq<ProviderCall>
    var uploads: seq<Upload>

    /** Row ids are store-assigned and unique. */
    ghost predicate Valid()
      reads this
    {
      && (forall i :: 0 <= i < |creations| ==> creations[i].id < nextId)
      && (forall i, j :: 0 <= i < j < |creations| ==> creations[i].id != creations[j].id)
    }

    constructor (meta: map<UserId, Bag>, files: set<Path>)
      ensures Valid()
      ensures this.meta == meta && this.files == files
      ensures metadataUpdates == 0 && creations == [] && providerCalls == [] && uploads == []
    {
      this.meta := meta;
      this.metadataUpdates := 0;
      this.creations := [];
      this.nextId := 1;
      this.files := files;
      this.providerCalls := [];
      this.uploads := [];
    }

    /** Issue one metadata update; the provider's merge of `changes` into the stored bag when it succeeds. */
    method UpdateMetadata(u: UserId, changes: Bag, ok: bool)
      requires Valid()
      modifies this
      ensures Valid()
      ensures metadataUpdates == old(metadataUpdates) + 1
      ensures meta == if ok && u in old(meta) then old(meta)[u := MergeBag(old(meta)[u], changes)] else old(meta)
      ensures creations == old(creations) && nextId == old(nextId) && files == old(files)
      ensures providerCalls == old(providerCalls) && uploads == old(uploads)
    {
      metadataUpdates := metadataUpdates + 1;
      if ok && u in meta {
        meta := meta[u := MergeBag(meta[u], changes)];
      }
    }

    /** INSERT one row; the store assigns the id, and `created_at` is `now`. */
    method Insert(u: UserId, prompt: string, content: string, kind: Kind, publish: bool, now: int)
      requires Valid()
      modifies this
      ensures Valid()
      ensures creations == old(creations) + [Creation(old(nextId), u, prompt, content, kind, publish, Some([]), now)]
      ensures meta == old(meta) && metadataUpdates == old(metadataUpdates) && files == old(files)
      ensures providerCalls == old(providerCalls) && uploads == old(uploads)
    {
      creations := creations + [Creation(nextId, u, prompt, content, kind, publish, Some([]), now)];
      nextId := nextId + 1;
    }

    /** UPDATE the `likes` of the row at a given position. */
    method SetLikes(i: nat, likes: seq<UserId>)
      requires Valid() && i < |creations|
      modifies this
      ensures Valid()
      ensures creations == old(creations)[i := old(creations)[i].(likes := Some(likes))]
      ensures meta == old(meta) && metadataUpdates == old(metadataUpdates) && files == old(files)
      ensures nextId == old(nextId) && providerCalls == old(providerCalls) && uploads == old(uploads)
    {
      creations := creations[i := creations[i].(likes := Some(likes))];
      assert forall k :: 0 <= k < |creations| ==> creations[k].id == old(creations)[k].id;
    }

    /** `fs.unlinkSync`: the file must exist. */
    method Unlink(p: Path)
      requires p in files
      modifies this`files
      ensures files == old(files) - {p}
    {
      files := files - {p};
    }

    /** `if (fs.existsSync(p)) fs.unlinkSync(p)`, the cleanup of a catch block. */
    method DiscardIfExists(p: Path)
      modifies this`files
      ensures files == old(files) - {p}
    {
      if p in files {
        files := files - {p};
      }
    }

    /** `fs.writeFileSync`. */
    method WriteFile(p: Path)
      modifies this`files
      ensures files == old(files) + {p}
    {
      files := files + {p};
    }

    method CallProvider(c: ProviderCall)
      modifies this`providerCalls
      ensures providerCalls == old(providerCalls) + [c]
    {
      providerCalls := providerCalls + [c];
    }

    method IssueUpload(up: Upload)
      modifies this`uploads
      ensures uploads == old(uploads) + [up]
    {
      uploads := uploads + [up];
    }
  }
}
