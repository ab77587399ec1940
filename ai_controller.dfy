/**
  The six generation handlers. Each runs a fixed, short-circuiting sequence:
  validate the input, check entitlement, call the provider, insert a
  creation, charge the free quota (article and blog title only), respond.
  The outcome of every external call the handler makes is a parameter:
  `...LookupOk` for identity lookups, `reply`/`image`/`cutout`/`parsed` for
  provider and parser results (None when the call throws), `stored` for the
  object store's answer, `insertOk` for the INSERT, and `now` for the
  store's clock. The staged file of a file-bearing handler is in `w.files`
  when the handler starts, as the upload middleware leaves it.
 */
module AiController {
  import opened JsValues
  import opened Services
  import opened Entitlement

  const MaxResumeBytes := 5 * 1024 * 1024

  const PremiumOnly := "This feature is only available for premium subscription."
  const FreeLimitText := "Free limit reached. Upgrade to continue."
  const ImageFailed := "Failed to generate image."
  const BackgroundFailed := "Failed to remove background. Please try again."
  const BackgroundNotConfigured := "Background removal service not configured. Image uploaded normally."
  const ObjectFailed := "Failed to remove object."
  const ResumeFailed := "Failed to review resume."

  /** `!field` is false: a string body field that is present and truthy. */
  function Given(field: Option<string>): (r: bool)
    ensures r <==> field.Some? && Truthy(Str(field.value))
  {
    field.Some? && field.value != ""
  }

  /** The temporary file the background-removal handler writes next to the staged image. */
  function CutoutPath(p: Path): (r: Path)
    ensures r != p
    ensures |r| == |p| + 9
    ensures r[..|p|] == p && r[|p|..] == "_nobg.png"
  {
    p + "_nobg.png"
  }

  /** The prompt persisted for an object removal. */
  function ObjectPrompt(name: string): (r: string)
    ensures |r| == |name| + 18
    ensures r[..7] == "Remove " && r[|r| - 11..] == " from image"
    ensures r[7..|r| - 11] == name
  {
    "Remove " + name + " from image"
  }

  const ReviewInstruction := "Review this resume and give constructive feedback:\n\n"

  /** The completion prompt of a resume review: the fixed instruction, then the parsed text. */
  function ReviewPrompt(text: string): (r: string)
    ensures |r| == |ReviewInstruction| + |text|
    ensures r[..|ReviewInstruction|] == ReviewInstruction && r[|ReviewInstruction|..] == text
  {
    ReviewInstruction + text
  }

  /** `incrementFreeUsage`: its own usage lookup, then one metadata update; a failure is swallowed. */
  method IncrementFreeUsage(w: World, u: UserId, lookupOk: bool, writeOk: bool)
    requires w.Valid()
    modifies w
    ensures w.Valid()
    ensures w.meta == Charged(old(w.meta), u, lookupOk, writeOk)
    ensures w.metadataUpdates == old(w.metadataUpdates) + 1
    ensures w.creations == old(w.creations) && w.nextId == old(w.nextId) && w.files == old(w.files)
    ensures w.providerCalls == old(w.providerCalls) && w.uploads == old(w.uploads)
  {
    var current := FreeUsageStatus(w.meta, u, lookupOk);
    if u in w.meta {
      MergeWithoutNull(w.meta[u], map["free_usage" := PlusOne(current)]);
    }
    w.UpdateMetadata(u, map["free_usage" := PlusOne(current)], writeOk);
  }

  /** POST /generate-article. */
  method GenerateArticle(w: World, u: UserId, prompt: Option<string>, length: Option<Value>,
                         premiumLookupOk: bool, usageLookupOk: bool, reply: Option<string>, insertOk: bool,
                         chargeLookupOk: bool, chargeWriteOk: bool, now: int)
    returns (r: Envelope)
    requires w.Valid()
    modifies w
    ensures w.Valid()
    ensures w.files == old(w.files) && w.uploads == old(w.uploads)
    ensures !(Given(prompt) && TruthyOpt(length)) ==>
      r == BadRequest("Prompt and length are required") && unchanged(w)
    ensures Given(prompt) && TruthyOpt(length) && QuotaExhausted(old(w.meta), u, premiumLookupOk, usageLookupOk) ==>
      r == Declined(FreeLimitText) && unchanged(w)
    ensures Given(prompt) && TruthyOpt(length) && !QuotaExhausted(old(w.meta), u, premiumLookupOk, usageLookupOk) ==>
      var premium := PremiumStatus(old(w.meta), u, premiumLookupOk);
      && w.providerCalls == old(w.providerCalls) + [Completion(prompt.value, ParseIntOf(length.value))]
      && if reply.Some? && insertOk then
           && r == Delivered(reply.value)
           && w.creations == old(w.creations) + [Creation(old(w.nextId), u, prompt.value, reply.value, Article, false, Some([]), now)]
           && w.meta == (if premium then old(w.meta) else Charged(old(w.meta), u, chargeLookupOk, chargeWriteOk))
           && w.metadataUpdates == old(w.metadataUpdates) + (if premium then 0 else 1)
         else
           && r == ServerError(ErrorMessage)
           && w.creations == old(w.creations) && w.meta == old(w.meta) && w.metadataUpdates == old(w.metadataUpdates)
  {
    if !Given(prompt) || !TruthyOpt(length) {
      return BadRequest("Prompt and length are required");
    }
    var isPremium := PremiumStatus(w.meta, u, premiumLookupOk);
    var freeUsage := FreeUsageStatus(w.meta, u, usageLookupOk);
    if !isPremium && LimitReached(freeUsage) {
      return Declined(FreeLimitText);
    }
    w.CallProvider(Completion(prompt.value, ParseIntOf(length.value)));
    if reply.None? || !insertOk {
      return ServerError(ErrorMessage);
    }
    var content := reply.value;
    w.Insert(u, prompt.value, content, Article, false, now);
    if !isPremium {
      IncrementFreeUsage(w, u, chargeLookupOk, chargeWriteOk);
    }
    return Delivered(content);
  }

  /** POST /generate-blog-title. */
  method GenerateBlogTitle(w: World, u: UserId, prompt: Option<string>,
                           premiumLookupOk: bool, usageLookupOk: bool, reply: Option<string>, insertOk: bool,
                           chargeLookupOk: bool, chargeWriteOk: bool, now: int)
    returns (r: Envelope)
    requires w.Valid()
    modifies w
    ensures w.Valid()
    ensures w.files == old(w.files) && w.uploads == old(w.uploads)
    ensures !Given(prompt) ==> r == BadRequest("Prompt is required") && unchanged(w)
    ensures Given(prompt) && QuotaExhausted(old(w.meta), u, premiumLookupOk, usageLookupOk) ==>
      r == Declined(FreeLimitText) && unchanged(w)
    ensures Given(prompt) && !QuotaExhausted(old(w.meta), u, premiumLookupOk, usageLookupOk) ==>
      var premium := PremiumStatus(old(w.meta), u, premiumLookupOk);
      && w.providerCalls == old(w.providerCalls) + [Completion(prompt.value, Limit(500))]
      && if reply.Some? && insertOk then
           && r == Delivered(reply.value)
           && w.creations == old(w.creations) + [Creation(old(w.nextId), u, prompt.value, reply.value, BlogTitle, false, Some([]), now)]
           && w.meta == (if premium then old(w.meta) else Charged(old(w.meta), u, chargeLookupOk, chargeWriteOk))
           && w.metadataUpdates == old(w.metadataUpdates) + (if premium then 0 else 1)
         else
           && r == ServerError(ErrorMessage)
           && w.creations == old(w.creations) && w.meta == old(w.meta) && w.metadataUpdates == old(w.metadataUpdates)
  {
    if !Given(prompt) {
      return BadRequest("Prompt is required");
    }
    var isPremium := PremiumStatus(w.meta, u, premiumLookupOk);
    var freeUsage := FreeUsageStatus(w.meta, u, usageLookupOk);
    if !isPremium && LimitReached(freeUsage) {
      return Declined(FreeLimitText);
    }
    w.CallProvider(Completion(prompt.value, Limit(500)));
    if reply.None? || !insertOk {
      return ServerError(ErrorMessage);
    }
    var content := reply.value;
    w.Insert(u, prompt.value, content, BlogTitle, false, now);
    if !isPremium {
      IncrementFreeUsage(w, u, chargeLookupOk, chargeWriteOk);
    }
    return Delivered(content);
  }

  /** POST /generate-image (premium only); `image` is the text-to-image provider's answer. */
  method GenerateImage(w: World, u: UserId, prompt: Option<string>, publish: Option<bool>,
                       premiumLookupOk: bool, image: Option<Bytes>, stored: Option<Stored>, insertOk: bool, now: int)
    returns (r: Envelope)
    requires w.Valid()
    modifies w
    ensures w.Valid()
    ensures w.meta == old(w.meta) && w.metadataUpdates == old(w.metadataUpdates) && w.files == old(w.files)
    ensures !Given(prompt) ==> r == BadRequest("Prompt is required") && unchanged(w)
    ensures Given(prompt) && !PremiumStatus(old(w.meta), u, premiumLookupOk) ==>
      r == Declined(PremiumOnly) && unchanged(w)
    ensures Given(prompt) && PremiumStatus(old(w.meta), u, premiumLookupOk) ==>
      && w.providerCalls == old(w.providerCalls) + [TextToImage(prompt.value)]
      && w.uploads == old(w.uploads) + (if image.Some? then [FromData(image.value)] else [])
      && if image.Some? && stored.Some? && insertOk then
           && r == Delivered(stored.value.secureUrl)
           && w.creations == old(w.creations) +
                [Creation(old(w.nextId), u, prompt.value, stored.value.secureUrl, Image, publish.GetOr(false), Some([]), now)]
         else
           r == ServerError(Text(ImageFailed)) && w.creations == old(w.creations)
  {
    if !Given(prompt) {
      return BadRequest("Prompt is required");
    }
    var isPremium := PremiumStatus(w.meta, u, premiumLookupOk);
    if !isPremium {
      return Declined(PremiumOnly);
    }
    w.CallProvider(TextToImage(prompt.value));
    if image.None? {
      return ServerError(Text(ImageFailed));
    }
    w.IssueUpload(FromData(image.value));
    if stored.None? || !insertOk {
      return ServerError(Text(ImageFailed));
    }
    w.Insert(u, prompt.value, stored.value.secureUrl, Image, publish.GetOr(false), now);
    return Delivered(stored.value.secureUrl);
  }

  /** POST /remove-image-background (premium only). Without a remove.bg key the original image
      is uploaded as is; otherwise remove.bg's `cutout` is written beside the staged file and uploaded. */
  method RemoveImageBackground(w: World, u: UserId, file: Option<StagedFile>, premiumLookupOk: bool,
                               removeBgConfigured: bool, cutout: Option<Bytes>, stored: Option<Stored>,
                               insertOk: bool, now: int)
    returns (r: Envelope)
    requires w.Valid()
    requires file.Some? ==> file.value.path in w.files
    modifies w
    ensures w.Valid()
    ensures w.meta == old(w.meta) && w.metadataUpdates == old(w.metadataUpdates)
    ensures file.None? ==> r == BadRequest("No file uploaded") && unchanged(w)
    ensures file.Some? ==> file.value.path !in w.files
    ensures file.Some? && !PremiumStatus(old(w.meta), u, premiumLookupOk) ==>
      && r == Declined(PremiumOnly)
      && w.files == old(w.files) - {file.value.path}
      && w.providerCalls == old(w.providerCalls) && w.uploads == old(w.uploads) && w.creations == old(w.creations)
    ensures file.Some? && PremiumStatus(old(w.meta), u, premiumLookupOk) && !removeBgConfigured ==>
      var p := file.value.path;
      && w.providerCalls == old(w.providerCalls)
      && w.uploads == old(w.uploads) + [FromFile(p)]
      && w.files == old(w.files) - {p}
      && if stored.Some? && insertOk then
           && r == Envelope(200, true, Some(stored.value.secureUrl), Text(BackgroundNotConfigured))
           && w.creations == old(w.creations) +
                [Creation(old(w.nextId), u, "Remove background from image", stored.value.secureUrl, Image, false, Some([]), now)]
         else
           r == ServerError(Text(BackgroundFailed)) && w.creations == old(w.creations)
    ensures file.Some? && PremiumStatus(old(w.meta), u, premiumLookupOk) && removeBgConfigured ==>
      var p := file.value.path;
      && w.providerCalls == old(w.providerCalls) + [RemoveBackground(p)]
      && w.uploads == old(w.uploads) + (if cutout.Some? then [FromFile(CutoutPath(p))] else [])
      && w.files == (if cutout.None? then old(w.files) - {p}
                     else if stored.None? then old(w.files) - {p} + {CutoutPath(p)}
                     else old(w.files) - {p, CutoutPath(p)})
      && if cutout.Some? && stored.Some? && insertOk then
           && r == Delivered(stored.value.secureUrl)
           && w.creations == old(w.creations) +
                [Creation(old(w.nextId), u, "Remove background from image", stored.value.secureUrl, Image, false, Some([]), now)]
         else
           r == ServerError(Text(BackgroundFailed)) && w.creations == old(w.creations)
  {
    if file.None? {
      return BadRequest("No file uploaded");
    }
    var p := file.value.path;
    var isPremium := PremiumStatus(w.meta, u, premiumLookupOk);
    if !isPremium {
      w.Unlink(p);
      return Declined(PremiumOnly);
    }
    if !removeBgConfigured {
      w.IssueUpload(FromFile(p));
      if stored.None? {
        w.DiscardIfExists(p);
        return ServerError(Text(BackgroundFailed));
      }
      w.Unlink(p);
      if !insertOk {
        w.DiscardIfExists(p);
        return ServerError(Text(BackgroundFailed));
      }
      w.Insert(u, "Remove background from image", stored.value.secureUrl, Image, false, now);
      return Envelope(200, true, Some(stored.value.secureUrl), Text(BackgroundNotConfigured));
    }
    w.CallProvider(RemoveBackground(p));
    if cutout.None? {
      w.DiscardIfExists(p);
      return ServerError(Text(BackgroundFailed));
    }
    var temp := CutoutPath(p);
    w.WriteFile(temp);
    w.IssueUpload(FromFile(temp));
    if stored.None? {
      w.DiscardIfExists(p);
      return ServerError(Text(BackgroundFailed));
    }
    w.Unlink(p);
    w.Unlink(temp);
    if !insertOk {
      w.DiscardIfExists(p);
      return ServerError(Text(BackgroundFailed));
    }
    w.Insert(u, "Remove background from image", stored.value.secureUrl, Image, false, now);
    return Delivered(stored.value.secureUrl);
  }

  /** POST /remove-image-object (premium only): upload the staged image and persist the URL of
      its transformed version, `transformUrl(publicId)`. */
  method RemoveImageObject(w: World, u: UserId, file: Option<StagedFile>, objectName: Option<string>,
                           premiumLookupOk: bool, stored: Option<Stored>, transformUrl: string -> string,
                           insertOk: bool, now: int)
    returns (r: Envelope)
    requires w.Valid()
    requires file.Some? ==> file.value.path in w.files
    modifies w
    ensures w.Valid()
    ensures w.meta == old(w.meta) && w.metadataUpdates == old(w.metadataUpdates) && w.providerCalls == old(w.providerCalls)
    ensures file.None? ==> r == BadRequest("Image file is required") && unchanged(w)
    ensures file.Some? && !Given(objectName) ==> r == BadRequest("Object to remove is required") && unchanged(w)
    ensures file.Some? && Given(objectName) ==> w.files == old(w.files) - {file.value.path}
    ensures file.Some? && Given(objectName) && !PremiumStatus(old(w.meta), u, premiumLookupOk) ==>
      r == Declined(PremiumOnly) && w.uploads == old(w.uploads) && w.creations == old(w.creations)
    ensures file.Some? && Given(objectName) && PremiumStatus(old(w.meta), u, premiumLookupOk) ==>
      && w.uploads == old(w.uploads) + [FromFile(file.value.path)]
      && if stored.Some? && insertOk then
           && r == Delivered(transformUrl(stored.value.publicId))
           && w.creations == old(w.creations) +
                [Creation(old(w.nextId), u, ObjectPrompt(objectName.value), transformUrl(stored.value.publicId), Image, false, Some([]), now)]
         else
           r == ServerError(Text(ObjectFailed)) && w.creations == old(w.creations)
  {
    if file.None? {
      return BadRequest("Image file is required");
    }
    if !Given(objectName) {
      return BadRequest("Object to remove is required");
    }
    var p := file.value.path;
    var isPremium := PremiumStatus(w.meta, u, premiumLookupOk);
    if !isPremium {
      w.Unlink(p);
      return Declined(PremiumOnly);
    }
    w.IssueUpload(FromFile(p));
    if stored.None? {
      w.DiscardIfExists(p);
      return ServerError(Text(ObjectFailed));
    }
    w.Unlink(p);
    var transformed := transformUrl(stored.value.publicId);
    if !insertOk {
      w.DiscardIfExists(p);
      return ServerError(Text(ObjectFailed));
    }
    w.Insert(u, ObjectPrompt(objectName.value), transformed, Image, false, now);
    return Delivered(transformed);
  }

  /** POST /resume-review (premium only); `parsed` is the text extracted from the PDF. */
  method ResumeReview(w: World, u: UserId, file: Option<StagedFile>, premiumLookupOk: bool,
                      parsed: Option<string>, reply: Option<string>, insertOk: bool, now: int)
    returns (r: Envelope)
    requires w.Valid()
    requires file.Some? ==> file.value.path in w.files
    modifies w
    ensures w.Valid()
    ensures w.meta == old(w.meta) && w.metadataUpdates == old(w.metadataUpdates) && w.uploads == old(w.uploads)
    ensures file.None? ==> r == BadRequest("Resume file is required") && unchanged(w)
    ensures file.Some? ==> w.files == old(w.files) - {file.value.path}
    ensures file.Some? && !PremiumStatus(old(w.meta), u, premiumLookupOk) ==>
      r == Declined(PremiumOnly) && w.providerCalls == old(w.providerCalls) && w.creations == old(w.creations)
    ensures file.Some? && PremiumStatus(old(w.meta), u, premiumLookupOk) && file.value.size > MaxResumeBytes ==>
      r == BadRequest("Resume file size exceeds 5MB.") && w.providerCalls == old(w.providerCalls) && w.creations == old(w.creations)
    ensures file.Some? && PremiumStatus(old(w.meta), u, premiumLookupOk) && file.value.size <= MaxResumeBytes ==>
      && w.providerCalls == old(w.providerCalls) +
           (if parsed.Some? then [Completion(ReviewPrompt(parsed.value), Limit(1000))] else [])
      && if parsed.Some? && reply.Some? && insertOk then
           && r == Delivered(reply.value)
           && w.creations == old(w.creations) +
                [Creation(old(w.nextId), u, "Resume review", reply.value, Kind.ResumeReview, false, Some([]), now)]
         else
           r == ServerError(Text(ResumeFailed)) && w.creations == old(w.creations)
  {
    if file.None? {
      return BadRequest("Resume file is required");
    }
    var p := file.value.path;
    var isPremium := PremiumStatus(w.meta, u, premiumLookupOk);
    if !isPremium {
      w.Unlink(p);
      return Declined(PremiumOnly);
    }
    if file.value.size > MaxResumeBytes {
      w.Unlink(p);
      return BadRequest("Resume file size exceeds 5MB.");
    }
    if parsed.None? {
      w.DiscardIfExists(p);
      return ServerError(Text(ResumeFailed));
    }
    w.Unlink(p);
    w.CallProvider(Completion(ReviewPrompt(parsed.value), Limit(1000)));
    if reply.None? || !insertOk {
      w.DiscardIfExists(p);
      return ServerError(Text(ResumeFailed));
    }
    w.Insert(u, "Resume review", reply.value, Kind.ResumeReview, false, now);
    return Delivered(reply.value);
  }
}
