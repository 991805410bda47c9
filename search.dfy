/**
 * The YouTube half of `searchMusic` (MusicPlayer.jsx): the API key list,
 * rotation over the keys until one answers with items, and how those results
 * are combined with the local matches. The HTTP requests themselves are not
 * modelled: each key's response is given.
 */
module Search {
  import opened Wrappers
  import opened Text
  import opened Catalog

  /** `VITE_YOUTUBE_API_KEYS || VITE_YOUTUBE_API_KEY || ""`: an unset or empty variable falls through. */
  function RawKeys(keys: Option<string>, key: Option<string>): (r: string)
    ensures keys.Some? && keys.value != "" ==> r == keys.value
    ensures (keys.None? || keys.value == "") && key.Some? ==> r == key.value
    ensures (keys.None? || keys.value == "") && key.None? ==> r == ""
  {
    if keys.Some? && keys.value != "" then keys.value
    else if key.Some? then key.value
    else ""
  }

  /** `.map(k => k.trim()).filter(k => k)` */
  function TrimmedNonEmpty(parts: seq<string>): (r: seq<string>)
    ensures |r| <= |parts|
    ensures forall k :: 0 <= k < |r| ==> r[k] != "" && IsTrimmed(r[k])
  {
    if |parts| == 0 then []
    else
      var rest := TrimmedNonEmpty(parts[1..]);
      if Trim(parts[0]) != "" then [Trim(parts[0])] + rest else rest
  }

  /** One field gives its trimmed text, or nothing when that is empty. */
  lemma TrimmedNonEmptyOne(part: string)
    ensures TrimmedNonEmpty([part]) == if Trim(part) == "" then [] else [Trim(part)]
  {
    assert [part][1..] == [];
  }

  /** Fields are cleaned one by one and in order. */
  lemma {:induction false} TrimmedNonEmptyConcat(a: seq<string>, b: seq<string>)
    ensures TrimmedNonEmpty(a + b) == TrimmedNonEmpty(a) + TrimmedNonEmpty(b)
  {
    if |a| == 0 {
      assert a + b == b;
    } else {
      assert (a + b)[0] == a[0];
      assert (a + b)[1..] == a[1..] + b;
      TrimmedNonEmptyConcat(a[1..], b);
    }
  }

  /** Trimming and dropping empties never brings in a character the fields did not hold. */
  lemma {:induction false} TrimmedNonEmptyAvoids(parts: seq<string>, c: char)
    requires forall k :: 0 <= k < |parts| ==> c !in parts[k]
    ensures forall k :: 0 <= k < |TrimmedNonEmpty(parts)| ==> c !in TrimmedNonEmpty(parts)[k]
  {
    if |parts| > 0 {
      TrimmedNonEmptyAvoids(parts[1..], c);
      assert c !in Trim(parts[0]);
    }
  }

  /**
   * `rawKeys.split(',').map(k => k.trim()).filter(k => k)`: every key is
   * non-empty, trimmed and free of commas, and there are at most as many
   * keys as comma-separated fields.
   */
  function ParseKeys(raw: string): (keys: seq<string>)
    ensures |keys| <= |Split(raw, ',')|
    ensures forall k :: 0 <= k < |keys| ==> keys[k] != "" && IsTrimmed(keys[k]) && ',' !in keys[k]
  {
    TrimmedNonEmptyAvoids(Split(raw, ','), ',');
    TrimmedNonEmpty(Split(raw, ','))
  }

  lemma {:induction false} TrimmedNonEmptyKeeps(keys: seq<string>)
    requires forall k :: 0 <= k < |keys| ==> keys[k] != "" && IsTrimmed(keys[k])
    ensures TrimmedNonEmpty(keys) == keys
  {
    if |keys| > 0 {
      TrimTrimmed(keys[0]);
      TrimmedNonEmptyKeeps(keys[1..]);
      assert keys == [keys[0]] + keys[1..];
    }
  }

  /**
   * Comma-free fields written comma-separated parse to those fields cleaned:
   * `"KEY1, KEY2"` gives both keys, trimmed.
   */
  lemma ParseKeysFields(fields: seq<string>)
    requires |fields| >= 1
    requires forall k :: 0 <= k < |fields| ==> ',' !in fields[k]
    ensures ParseKeys(Join(fields, ',')) == TrimmedNonEmpty(fields)
  {
    SplitJoin(fields, ',');
  }

  /** Two padded keys around a comma give both keys. */
  lemma ParseKeysPair(a: string, b: string)
    requires ',' !in a && ',' !in b && Trim(a) != "" && Trim(b) != ""
    ensures ParseKeys(a + "," + b) == [Trim(a), Trim(b)]
  {
    JoinTwo(a, b);
    ParseKeysFields([a, b]);
    TrimmedNonEmptyPair(a, b);
  }

  lemma JoinTwo(a: string, b: string)
    ensures Join([a, b], ',') == a + "," + b
  {
    assert [a, b][1..] == [b];
  }

  lemma TrimmedNonEmptyPair(a: string, b: string)
    requires Trim(a) != "" && Trim(b) != ""
    ensures TrimmedNonEmpty([a, b]) == [Trim(a), Trim(b)]
  {
    var fields := [a, b];
    assert fields[1..] == [b];
    assert TrimmedNonEmpty([b]) == [Trim(b)] by {
      TrimmedNonEmptyOne(b);
    }
  }

  /** Writing well-formed keys comma-separated and parsing them gives the same keys back. */
  lemma ParseKeysJoin(keys: seq<string>)
    requires |keys| >= 1
    requires forall k :: 0 <= k < |keys| ==> keys[k] != "" && IsTrimmed(keys[k]) && ',' !in keys[k]
    ensures ParseKeys(Join(keys, ',')) == keys
  {
    SplitJoin(keys, ',');
    TrimmedNonEmptyKeeps(keys);
  }

  /** What one `fetch` with one key came back with. */
  datatype Response =
    | QuotaExceeded          // status 403: rotate to the next key
    | HttpError(status: nat) // any other non-ok status: thrown, caught, next key
    | NetworkError           // fetch or json() threw: caught, next key
    | NoItems                // ok, but the body has no `items`: next key
    | Items(videos: seq<Song>) // ok with `items`: stop here

  /** The items of the first response that has any, or `None` when no key succeeds. */
  function FirstItems(responses: seq<Response>): (r: Option<seq<Song>>)
    ensures r.Some? <==> exists j :: 0 <= j < |responses| && responses[j].Items?
  {
    if |responses| == 0 then None
    else if responses[0].Items? then Some(responses[0].videos)
    else
      var r := FirstItems(responses[1..]);
      assert forall j :: 1 <= j < |responses| ==> responses[j] == responses[1..][j - 1];
      r
  }

  /** The responses the keys would get, in key order, for the request `q=query + ' audio'`. */
  function KeyResponses(keys: seq<string>, query: string, respond: (string, string) -> Response): (r: seq<Response>)
    ensures |r| == |keys|
    ensures forall i :: 0 <= i < |keys| ==> r[i] == respond(query + " audio", keys[i])
  {
    seq(|keys|, i requires 0 <= i < |keys| => respond(query + " audio", keys[i]))
  }

  /**
   * The `for (const apiKey of apiKeys)` loop: tries the keys in order and
   * stops at the first response with items. `attempts` is the number of keys
   * used; keys after a success are never tried.
   */
  method RotateKeys(responses: seq<Response>) returns (success: bool, videos: seq<Song>, attempts: nat)
    ensures attempts <= |responses|
    ensures success == FirstItems(responses).Some?
    ensures success ==> videos == FirstItems(responses).value
    ensures success ==> attempts >= 1 && responses[attempts - 1] == Items(videos)
    ensures forall j :: 0 <= j < attempts - 1 ==> !responses[j].Items?
    ensures !success ==> videos == [] && attempts == |responses|
  {
    success, videos, attempts := false, [], 0;
    while attempts < |responses|
      invariant attempts <= |responses|
      invariant forall j :: 0 <= j < attempts ==> !responses[j].Items?
      invariant FirstItems(responses) == FirstItems(responses[attempts..])
    {
      var response := responses[attempts];
      assert responses[attempts..][1..] == responses[attempts + 1..];
      attempts := attempts + 1;
      if response.Items? {
        success, videos := true, response.videos;
        return;
      }
    }
  }

  /** The entry shown when every key failed and nothing matched locally. */
  const QuotaErrorEntry: Song := Song("Quota Exceeded / Error", "All API keys failed. Check .env", "", ErrorEntry)

  /**
   * `[...localMatches, ...youtubeResults]`, where the YouTube results are the
   * succeeding key's items, nothing when no key succeeded, or the single error
   * entry when no key succeeded and nothing matched locally.
   */
  function CombineResults(local: seq<Song>, success: bool, videos: seq<Song>): (r: seq<Song>)
    ensures |local| <= |r|
    ensures !success && local == [] ==> r == [QuotaErrorEntry]
    ensures success || local != [] ==> r[..|local|] == local
    ensures success ==> r[|local|..] == videos
    ensures !success && local != [] ==> r == local
  {
    if !success && |local| == 0 then [QuotaErrorEntry]
    else if success then local + videos
    else local
  }

  const MissingKeysMessage := "Error: Missing API Keys in .env"
  const SearchingMessage := "Searching YouTube (Multi-Key)..."
  const SearchFailedMessage := "Search failed. Quota reached/Error."
  const SearchDoneMessage := "Search 'Top 50 hits'..."

  /**
   * The results and status line a search with keys ends with: the local
   * matches followed by the first succeeding key's videos (or the error
   * entry), and a status that says which happened. With no success but
   * some local matches the "searching" status is left standing.
   */
  function SearchOutcome(local: seq<Song>, keys: seq<string>, query: string,
                         respond: (string, string) -> Response): (r: (seq<Song>, string))
    ensures r.1 == SearchDoneMessage <==> exists j :: 0 <= j < |keys| && respond(query + " audio", keys[j]).Items?
    ensures r.1 == SearchFailedMessage <==>
      local == [] && !exists j :: 0 <= j < |keys| && respond(query + " audio", keys[j]).Items?
    ensures r.1 == SearchFailedMessage ==> r.0 == [QuotaErrorEntry]
    ensures r.1 != SearchFailedMessage ==> |local| <= |r.0| && r.0[..|local|] == local
  {
    var found := FirstItems(KeyResponses(keys, query, respond));
    (CombineResults(local, found.Some?, if found.Some? then found.value else []),
     if found.Some? then SearchDoneMessage
     else if local == [] then SearchFailedMessage
     else SearchingMessage)
  }

  /** The key loop and the combination step of `searchMusic`, once the query and the keys are known. */
  method SearchYouTube(local: seq<Song>, keys: seq<string>, query: string, respond: (string, string) -> Response)
    returns (results: seq<Song>, status: string)
    ensures (results, status) == SearchOutcome(local, keys, query, respond)
    ensures status == SearchDoneMessage <==> exists j :: 0 <= j < |keys| && respond(query + " audio", keys[j]).Items?
  {
    var responses := KeyResponses(keys, query, respond);
    var success, videos, attempts := RotateKeys(responses);
    status := SearchingMessage;
    if !success && |local| == 0 {
      status := SearchFailedMessage;
    } else if success {
      status := SearchDoneMessage;
    }
    results := CombineResults(local, success, videos);
    assert success <==> exists j :: 0 <= j < |keys| && responses[j].Items?;
  }
}
