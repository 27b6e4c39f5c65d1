/**
 * The image commands: DALL-E requests through the provider, Stability
 * requests gated on the API key, and the fixed charge each command adds to
 * the usage ledger once its image has arrived. The Stability service is an
 * oracle: its answer enters as an `Http` value, and each handler says
 * whether it would have sent a request at all.
 */
module Images {
  import opened Wrappers
  import opened Text
  import opened Ledger
  import opened Db
  import Config
  import Provider

  /** What a command answers with. */
  datatype Reply =
    | ImageFile(data: string)              // `image.png`
    | VideoFile(data: string)              // `video.mp4`
    | Message(text: string)                // a text reply
    | Failed(error: Provider.ProviderError) // `str(e)` of a provider error

  /** A Stability answer: a status and its body, or the exception the request raised. */
  datatype Http = Http(status: nat, body: string) | Raised(error: string)

  const NoStabilityKey: string := "Stability API is not set up on this bot."
  const NoAttachment: string := "Please attach an image to use this command!"
  const BadFormat: string := "Please use the format: search|replace"
  const InProgress: string := "Generation in-progress, try again later."

  // ---------------------------------------------------------------------
  // Argument parsing
  // ---------------------------------------------------------------------

  /** The word that selects each size at the start of the argument. */
  function SizeWord(size: string): string {
    if size == "1792x1024" then "hoz" else if size == "1024x1792" then "vert" else ""
  }

  /**
   * The size prefix of `genimage` and `dalle3hd`: "hoz" asks for a wide
   * image, "vert" for a tall one, and the word is cut off the prompt;
   * anything else is a square image of the prompt as given.
   */
  function SizePrefix(arg: string): (r: (string, string))
    ensures r.0 in {"1024x1024", "1792x1024", "1024x1792"}
    ensures r.0 == "1792x1024" <==> StartsWith(arg, "hoz")
    ensures r.0 == "1024x1792" <==> !StartsWith(arg, "hoz") && StartsWith(arg, "vert")
  {
    if StartsWith(arg, "hoz") then ("1792x1024", arg[3..])
    else if StartsWith(arg, "vert") then ("1024x1792", arg[4..])
    else ("1024x1024", arg)
  }

  /** The size word and the prompt put back together are the argument. */
  lemma SizePrefixRestores(arg: string)
    ensures SizeWord(SizePrefix(arg).0) + SizePrefix(arg).1 == arg
  {
    var (size, prompt) := SizePrefix(arg);
    if StartsWith(arg, "hoz") {
      assert arg == arg[..3] + arg[3..];
    } else if StartsWith(arg, "vert") {
      assert arg == arg[..4] + arg[4..];
    } else {
      assert "" + arg == arg;
    }
  }

  /** A prompt that starts with neither word keeps its words behind either one. */
  lemma SizePrefixOfWord(word: string, prompt: string)
    requires word in {"hoz", "vert"}
    ensures SizePrefix(word + prompt) == (if word == "hoz" then "1792x1024" else "1024x1792", prompt)
  {
    assert (word + prompt)[..|word|] == word;
    assert (word + prompt)[|word|..] == prompt;
    if word == "vert" {
      assert (word + prompt)[..3] == "ver";
    }
  }

  /**
   * The `search|replace` argument: exactly one `|`, both sides stripped;
   * any other number of bars is refused.
   */
  function SearchReplace(arg: string): (r: Option<(string, string)>)
    ensures r.Some? <==> Count(arg, '|') == 1
    ensures r.Some? ==> Count(r.value.0, '|') == 0 && Count(r.value.1, '|') == 0
  {
    SplitOnCount(arg, '|');
    var parts := SplitOn(arg, '|');
    if |parts| != 2 then None
    else
      StripCount(parts[0], '|');
      StripCount(parts[1], '|');
      Some((Strip(parts[0]), Strip(parts[1])))
  }

  /** Stripping never adds a character. */
  lemma StripCount(s: string, c: char)
    requires Count(s, c) == 0
    ensures Count(Strip(s), c) == 0
  {
    StripSpec(s);
    SliceCount(s, StripStart(s), StripStart(s) + |Strip(s)|, c);
  }

  lemma {:induction false} SliceCount(s: string, i: nat, j: nat, c: char)
    requires i <= j <= |s| && Count(s, c) == 0
    ensures Count(s[i..j], c) == 0
    decreases |s|
  {
    if i < j {
      if i == 0 {
        assert s[i..j][1..] == s[1..][0..j - 1];
        SliceCount(s[1..], 0, j - 1, c);
      } else {
        assert s[i..j] == s[1..][i - 1..j - 1];
        SliceCount(s[1..], i - 1, j - 1, c);
      }
    }
  }

  /** A text without the separator is one part. */
  lemma {:induction false} SplitOnNone(s: string, c: char)
    requires Count(s, c) == 0
    ensures SplitOn(s, c) == [s]
    decreases |s|
  {
    if |s| > 0 {
      SplitOnNone(s[1..], c);
      assert s == [s[0]] + s[1..];
    }
  }

  /** Splitting at the first separator: the text before it is the first part. */
  lemma {:induction false} SplitOnFirst(a: string, c: char, b: string)
    requires Count(a, c) == 0
    ensures SplitOn(a + [c] + b, c) == [a] + SplitOn(b, c)
    decreases |a|
  {
    var s := a + [c] + b;
    if |a| == 0 {
      assert s == [c] + b && s[1..] == b;
    } else {
      assert s[0] == a[0] && s[1..] == a[1..] + [c] + b;
      SplitOnFirst(a[1..], c, b);
      assert [a[0]] + a[1..] == a;
    }
  }

  /** Clean search and replace terms written with one bar are read back as they were. */
  lemma SearchReplaceRoundTrip(search: string, replace: string)
    requires Count(search, '|') == 0 && Count(replace, '|') == 0
    requires Strip(search) == search && Strip(replace) == replace
    ensures SearchReplace(search + "|" + replace) == Some((search, replace))
  {
    var arg := search + "|" + replace;
    assert arg == search + ['|'] + replace;
    SplitOnFirst(search, '|', replace);
    SplitOnNone(replace, '|');
    var parts := SplitOn(arg, '|');
    assert parts == [search] + [replace];
    assert |parts| == 2 && parts[0] == search && parts[1] == replace;
  }

  // ---------------------------------------------------------------------
  // DALL-E commands
  // ---------------------------------------------------------------------

  /** Every size the prefix can select has a DALL-E 3 price. */
  lemma SizesArePriced(arg: string, quality: string)
    ensures Provider.ImageCost("dall-e-3", 1, SizePrefix(arg).0, quality) ==
      Ok(if SizePrefix(arg).0 == "1024x1024" then 0.04 else 0.08)
  {
  }

  /** A square DALL-E 2 image is priced at 0.02. */
  lemma Dalle2IsPriced(quality: string)
    ensures Provider.ImageCost("dall-e-2", 1, "1024x1024", quality) == Ok(0.02)
  {
  }

  /**
   * `genimage`: one DALL-E 3 image of the size the prefix selects; the
   * provider's own charge is followed by the command's fixed 0.04, debited
   * with an initial balance of 0. A provider error is the reply and nothing
   * is charged.
   */
  method GenImage(db: Database, user: nat, arg: string, generated: Option<string>) returns (reply: Reply)
    modifies db`usage
    ensures generated.None? ==> reply == Failed(Provider.ProviderFailed) && db.usage == old(db.usage)
    ensures generated.Some? ==>
      var price := if SizePrefix(arg).0 == "1024x1024" then 0.04 else 0.08;
      && reply == ImageFile(generated.value)
      && db.usage == DebitUser(DebitUser(old(db.usage), user, price, Config.InitialDabloons), user, 0.04, 0.0)
  {
    var (size, prompt) := SizePrefix(arg);
    SizesArePriced(arg, "standard");
    var r := Provider.GetImage(db, "dall-e-3", 1, size, "standard", user, generated);
    if r.Err? {
      return Failed(r.error);
    }
    reply := ImageFile(r.value);
    db.UpdateUsage(user, 0.02 * 2.0, 0.0);
  }

  /** `dalle2`: one square DALL-E 2 image, then the fixed 0.02. */
  method Dalle2(db: Database, user: nat, generated: Option<string>) returns (reply: Reply)
    modifies db`usage
    ensures generated.None? ==> reply == Failed(Provider.ProviderFailed) && db.usage == old(db.usage)
    ensures generated.Some? ==>
      && reply == ImageFile(generated.value)
      && db.usage == DebitUser(DebitUser(old(db.usage), user, 0.02, Config.InitialDabloons), user, 0.02, 0.0)
  {
    Dalle2IsPriced("standard");
    var r := Provider.GetImage(db, "dall-e-2", 1, "1024x1024", "standard", user, generated);
    if r.Err? {
      return Failed(r.error);
    }
    reply := ImageFile(r.value);
    db.UpdateUsage(user, 0.02, 0.0);
  }

  /** `dalle3hd`: one high-definition DALL-E 3 image of the selected size, then the fixed 0.08. */
  method Dalle3Hd(db: Database, user: nat, arg: string, generated: Option<string>) returns (reply: Reply)
    modifies db`usage
    ensures generated.None? ==> reply == Failed(Provider.ProviderFailed) && db.usage == old(db.usage)
    ensures generated.Some? ==>
      var price := if SizePrefix(arg).0 == "1024x1024" then 0.04 else 0.08;
      && reply == ImageFile(generated.value)
      && db.usage == DebitUser(DebitUser(old(db.usage), user, price, Config.InitialDabloons), user, 0.08, 0.0)
  {
    var (size, prompt) := SizePrefix(arg);
    SizesArePriced(arg, "hd");
    var r := Provider.GetImage(db, "dall-e-3", 1, size, "hd", user, generated);
    if r.Err? {
      return Failed(r.error);
    }
    reply := ImageFile(r.value);
    db.UpdateUsage(user, 0.02 * 2.0 * 2.0, 0.0);
  }

  // ---------------------------------------------------------------------
  // Stability commands
  // ---------------------------------------------------------------------

  /**
   * What a Stability answer turns into: status 200 is the image, any other
   * status its JSON body, and a raised exception its message.
   */
  function StabilityReply(response: Http): (r: Reply)
    ensures response.Raised? ==> r == Message(response.error)
    ensures response.Http? && response.status == 200 ==> r == ImageFile(response.body)
    ensures response.Http? && response.status != 200 ==> r == Message(response.body)
  {
    match response
    case Raised(e) => Message(e)
    case Http(status, body) => if status == 200 then ImageFile(body) else Message(body)
  }

  /**
   * The common shape of `sdultra` and `sdcore`: without a key there is no
   * request and no charge; with one, the request is sent and only status
   * 200 charges `cost`, with an initial balance of 0.
   */
  method StabilityGenerate(db: Database, hasKey: bool, user: nat, cost: real, response: Http)
    returns (reply: Reply, requested: bool)
    modifies db`usage
    ensures requested == hasKey
    ensures !hasKey ==> reply == Message(NoStabilityKey)
    ensures hasKey ==> reply == StabilityReply(response)
    ensures db.usage == if hasKey && (response.Http? && response.status == 200)
                        then DebitUser(old(db.usage), user, cost, 0.0) else old(db.usage)
  {
    if !hasKey {
      return Message(NoStabilityKey), false;
    }
    requested := true;
    reply := StabilityReply(response);
    if response.Http? && response.status == 200 {
      db.UpdateUsage(user, cost, 0.0);
    }
  }

  /** `sdultra`: Stability Ultra at 0.08 an image. */
  method SdUltra(db: Database, hasKey: bool, user: nat, response: Http) returns (reply: Reply, requested: bool)
    modifies db`usage
    ensures requested == hasKey
    ensures reply == if hasKey then StabilityReply(response) else Message(NoStabilityKey)
    ensures db.usage == if hasKey && (response.Http? && response.status == 200)
                        then DebitUser(old(db.usage), user, 0.08, 0.0) else old(db.usage)
  {
    reply, requested := StabilityGenerate(db, hasKey, user, 0.08, response);
  }

  /** `sdcore`: Stability Core at 0.03 an image. */
  method SdCore(db: Database, hasKey: bool, user: nat, response: Http) returns (reply: Reply, requested: bool)
    modifies db`usage
    ensures requested == hasKey
    ensures reply == if hasKey then StabilityReply(response) else Message(NoStabilityKey)
    ensures db.usage == if hasKey && (response.Http? && response.status == 200)
                        then DebitUser(old(db.usage), user, 0.03, 0.0) else old(db.usage)
  {
    reply, requested := StabilityGenerate(db, hasKey, user, 0.03, response);
  }

  /**
   * `searchandreplace`: the key, then an attachment, then the argument's
   * form are checked in that order, each failure answered with its message
   * and no request; `request` holds the (search, replace) prompts sent.
   * Status 200 charges 0.04.
   */
  method SearchAndReplace(db: Database, hasKey: bool, user: nat, hasAttachment: bool, arg: string, response: Http)
    returns (reply: Reply, request: Option<(string, string)>)
    modifies db`usage
    ensures !hasKey ==> reply == Message(NoStabilityKey) && request.None?
    ensures hasKey && !hasAttachment ==> reply == Message(NoAttachment) && request.None?
    ensures hasKey && hasAttachment && SearchReplace(arg).None? ==> reply == Message(BadFormat) && request.None?
    ensures hasKey && hasAttachment && SearchReplace(arg).Some? ==>
      reply == StabilityReply(response) && request == SearchReplace(arg)
    ensures db.usage == if request.Some? && (response.Http? && response.status == 200)
                        then DebitUser(old(db.usage), user, 0.04, 0.0) else old(db.usage)
  {
    if !hasKey {
      return Message(NoStabilityKey), None;
    }
    if !hasAttachment {
      return Message(NoAttachment), None;
    }
    var terms := SearchReplace(arg);
    if terms.None? {
      return Message(BadFormat), None;
    }
    request := terms;
    reply := StabilityReply(response);
    if response.Http? && response.status == 200 {
      db.UpdateUsage(user, 0.04, 0.0);
    }
  }

  /**
   * `imagetovideo`: an attachment is required; status 200 answers with the
   * id of the job (`None` printed when the body has none), anything else
   * with the body. Nothing is charged.
   */
  function ImageToVideoReply(hasAttachment: bool, response: Http, videoId: Option<string>): (r: Reply)
    ensures !hasAttachment ==> r == Message(NoAttachment)
    ensures hasAttachment && (response.Http? && response.status == 200) ==>
      r == Message("Check back later with the command `getvideo [id]`\nVideo ID: " + videoId.GetOr("None"))
    ensures hasAttachment && !(response.Http? && response.status == 200) ==> r == StabilityReply(response)
  {
    if !hasAttachment then Message(NoAttachment)
    else match response
      case Raised(e) => Message(e)
      case Http(status, body) =>
        if status == 200 then Message("Check back later with the command `getvideo [id]`\nVideo ID: " + videoId.GetOr("None"))
        else Message(body)
  }

  /** `getvideo`: 202 is still running, 200 is the video, any other status its body. */
  function GetVideoReply(response: Http): (r: Reply)
    ensures r.VideoFile? <==> response.Http? && response.status == 200
    ensures response.Http? && response.status == 202 ==> r == Message(InProgress)
    ensures response.Http? && response.status !in {200, 202} ==> r == Message(response.body)
    ensures response.Raised? ==> r == Message(response.error)
  {
    match response
    case Raised(e) => Message(e)
    case Http(status, body) =>
      if status == 202 then Message(InProgress)
      else if status == 200 then VideoFile(body)
      else Message(body)
  }
}
