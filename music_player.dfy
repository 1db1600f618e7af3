/**
 * The hub's music player: reading the Spotify token from the URL fragment
 * or from storage, the track chosen for the system state, and the
 * play/pause toggle. The browser's location, `localStorage`, the Spotify
 * SDK and the outcome of the play request are inputs.
 */
module MusicPlayer {
  import opened Wrappers
  import opened JsText

  // --- The URL fragment -------------------------------------------------------

  /** The key a plain object's setter swallows: assigning a string to it changes nothing. */
  const ProtoKey := "__proto__"

  /** `hash.substring(1)`: the fragment without its leading `#`. */
  function Fragment(hash: string): (f: string)
    ensures hash != "" ==> [hash[0]] + f == hash
    ensures hash == "" ==> f == ""
  {
    if hash == "" then "" else hash[1..]
  }

  /** `const [key, val] = kv.split('=')`: the text before the first `=`. */
  function KeyOf(piece: string): string {
    Split(piece, '=')[0]
  }

  /** The text between the first and second `=`, or `undefined` when there is no `=`. */
  function ValueOf(piece: string): Option<string> {
    var parts := Split(piece, '=');
    if |parts| >= 2 then Some(parts[1]) else None
  }

  /** `acc[key] = val` on a plain object. */
  function Assign(acc: map<string, Option<string>>, piece: string): map<string, Option<string>> {
    if KeyOf(piece) == ProtoKey then acc else acc[KeyOf(piece) := ValueOf(piece)]
  }

  /** The `reduce` over the pieces, left to right. */
  function Reduce(pieces: seq<string>): map<string, Option<string>> {
    if pieces == [] then map[]
    else Assign(Reduce(pieces[..|pieces| - 1]), pieces[|pieces| - 1])
  }

  /** The `&`-separated pieces of the fragment. */
  function Pieces(hash: string): seq<string> {
    Split(Fragment(hash), '&')
  }

  /** Some piece before index `n` has key `k`. */
  predicate KeyedBefore(pieces: seq<string>, n: int, k: string)
    requires n <= |pieces|
  {
    exists i :: 0 <= i < n && KeyOf(pieces[i]) == k
  }

  /** Pieces at or after `from` all have a key other than `k`. */
  predicate NoKeyFrom(pieces: seq<string>, from: int, k: string) {
    forall j :: 0 <= j < |pieces| && from <= j ==> KeyOf(pieces[j]) != k
  }

  /** A key occurs among the pieces iff it occurs before the last one or is the last one's. */
  lemma KeyedBeforeLast(pieces: seq<string>, k: string)
    requires pieces != []
    ensures KeyedBefore(pieces, |pieces|, k) <==>
      KeyedBefore(pieces[..|pieces| - 1], |pieces| - 1, k) || KeyOf(pieces[|pieces| - 1]) == k
  {
    var init := pieces[..|pieces| - 1];
    if KeyedBefore(init, |init|, k) {
      var i :| 0 <= i < |init| && KeyOf(init[i]) == k;
      assert pieces[i] == init[i];
    }
    if KeyedBefore(pieces, |pieces|, k) && KeyOf(pieces[|pieces| - 1]) != k {
      var i :| 0 <= i < |pieces| && KeyOf(pieces[i]) == k;
      assert init[i] == pieces[i];
    }
  }

  /** The keys of the reduced object: every key of a piece, except `__proto__`. */
  lemma {:induction false} ReduceKeys(pieces: seq<string>, k: string)
    ensures k in Reduce(pieces) <==> k != ProtoKey && KeyedBefore(pieces, |pieces|, k)
  {
    if pieces != [] {
      ReduceKeys(pieces[..|pieces| - 1], k);
      KeyedBeforeLast(pieces, k);
    }
  }

  /** Of repeated keys the last occurrence wins. */
  lemma {:induction false} ReduceLastWins(pieces: seq<string>, i: nat)
    requires i < |pieces| && KeyOf(pieces[i]) != ProtoKey
    requires NoKeyFrom(pieces, i + 1, KeyOf(pieces[i]))
    ensures KeyOf(pieces[i]) in Reduce(pieces)
    ensures Reduce(pieces)[KeyOf(pieces[i])] == ValueOf(pieces[i])
  {
    var init := pieces[..|pieces| - 1];
    if i < |pieces| - 1 {
      assert init[i] == pieces[i];
      assert KeyOf(pieces[|pieces| - 1]) != KeyOf(pieces[i]);
      forall j | i + 1 <= j < |init|
        ensures KeyOf(init[j]) != KeyOf(init[i])
      {
        assert init[j] == pieces[j];
      }
      ReduceLastWins(init, i);
    }
  }

  /** The parsed fragment, as the `reduce` builds it. */
  function HashParams(hash: string): map<string, Option<string>> {
    Reduce(Pieces(hash))
  }

  /** One more piece is one more assignment. */
  lemma ReduceStep(pieces: seq<string>, n: nat)
    requires n < |pieces|
    ensures Reduce(pieces[..n + 1]) == Assign(Reduce(pieces[..n]), pieces[n])
  {
    assert pieces[..n + 1][..n] == pieces[..n];
  }

  /**
   * Parsing the fragment with the `reduce` loop; `ReduceKeys` and
   * `ReduceLastWins` say what the result holds.
   */
  method ParseHash(hash: string) returns (params: map<string, Option<string>>)
    ensures params == HashParams(hash)
  {
    var pieces := Split(Fragment(hash), '&');
    params := map[];
    for n := 0 to |pieces|
      invariant params == Reduce(pieces[..n])
    {
      ReduceStep(pieces, n);
      var parts := Split(pieces[n], '=');
      var key := parts[0];
      if key != ProtoKey {
        params := params[key := if |parts| >= 2 then Some(parts[1]) else None];
      }
    }
    assert pieces[..|pieces|] == pieces;
  }

  /** In `key=value=more` only the first value counts; the rest is dropped. */
  lemma ExtraSegmentsDropped(key: string, value: string, more: string)
    requires '=' !in key && '=' !in value
    ensures KeyOf(key + "=" + value + "=" + more) == key
    ensures ValueOf(key + "=" + value + "=" + more) == Some(value)
  {
    var rest := Split(more, '=');
    var tail := [value] + rest;
    var parts := [key] + tail;
    assert parts[1..] == tail && tail[1..] == rest;
    assert Join(tail, '=') == value + "=" + more;
    assert Join(parts, '=') == key + "=" + value + "=" + more;
    SplitJoin(parts, '=');
  }

  // --- Choosing the token ---------------------------------------------------------

  /** A JavaScript string used as a condition: present and non-empty. */
  predicate Truthy(s: Option<string>) {
    s.Some? && s.value != ""
  }

  datatype TokenSource = FromHash(token: string) | FromStorage(token: string) | NoToken

  /**
   * `hash.access_token` when it is a non-empty value, otherwise the stored
   * token when there is a non-empty one, otherwise none.
   */
  function ChooseToken(params: map<string, Option<string>>, stored: Option<string>): (src: TokenSource)
    ensures src.FromHash? <==> "access_token" in params && Truthy(params["access_token"])
    ensures src.FromHash? ==> Some(src.token) == params["access_token"]
    ensures src.FromStorage? <==> !src.FromHash? && Truthy(stored)
    ensures src.FromStorage? ==> Some(src.token) == stored
    ensures !src.NoToken? ==> src.token != ""
  {
    if "access_token" in params && Truthy(params["access_token"]) then FromHash(params["access_token"].value)
    else if Truthy(stored) then FromStorage(stored.value)
    else NoToken
  }

  // --- The track for the system state -------------------------------------------

  const TrackPrefix := "spotify:track:"
  const OverlordTrackId := "5jUQgikDAR8VdRidW1058F"

  /** `spotifyTrackMap`, each entry given by its track id. */
  const TrackIds: map<string, string> := map[
    "overlord" := OverlordTrackId,
    "assessor" := "6I3xxBk9bTRFqzVur1RZW0",
    "oracle" := "0KLy8FhoIWjPwfcjQSJSZ9",
    "judge" := "57cV6k2cWGacKcaAinpgFk",
    "executor" := "4p2lyaJDrMW83XxAyHkcHE",
    "network" := OverlordTrackId
  ]

  /** The track for a system state, falling back to the overlord's for any state not listed. */
  function TrackFor(systemState: string): (uri: string)
    ensures systemState in TrackIds ==> uri == TrackPrefix + TrackIds[systemState]
    ensures systemState !in TrackIds ==> uri == TrackPrefix + OverlordTrackId
  {
    if systemState in TrackIds then TrackPrefix + TrackIds[systemState] else TrackPrefix + TrackIds["overlord"]
  }

  /** Whatever the state, the player asks for a Spotify track URI of one of the listed tracks. */
  lemma TrackIsListed(systemState: string)
    ensures StartsWith(TrackFor(systemState), TrackPrefix)
    ensures TrackFor(systemState)[|TrackPrefix|..] in TrackIds.Values
  {
    var uri := TrackFor(systemState);
    var id := if systemState in TrackIds then TrackIds[systemState] else TrackIds["overlord"];
    assert uri == TrackPrefix + id;
    assert uri[..|TrackPrefix|] == TrackPrefix && uri[|TrackPrefix|..] == id;
  }

  // --- The player -------------------------------------------------------------------

  datatype PlayRequest = PlayRequest(deviceId: string, token: string, uris: seq<string>)

  datatype ToggleOutcome =
    | Paused
    | Playing(request: PlayRequest)
    | PlayFailed(request: PlayRequest, message: string)
    | NotConnected(message: string)

  const PlayFailedMessage := "Unable to play track. Check Spotify connection."
  const NotConnectedMessage := "Spotify not connected. Please connect your account."

  datatype PlayerState = PlayerState(paused: bool, currentTrack: Option<string>)

  class Player {
    var spotifyToken: Option<string>
    var isPlaying: bool
    var deviceId: Option<string>
    var trackName: string
    /** `localStorage['spotify_token']`. */
    var storedToken: Option<string>
    /** `window.location.hash`. */
    var locationHash: string
    const track: string

    constructor (systemState: string, hash: string, stored: Option<string>)
      ensures spotifyToken.None? && !isPlaying && deviceId.None?
      ensures trackName == "Initializing Grid Audio…"
      ensures storedToken == stored && locationHash == hash
      ensures track == TrackFor(systemState)
    {
      spotifyToken, isPlaying, deviceId := None, false, None;
      trackName := "Initializing Grid Audio…";
      storedToken, locationHash := stored, hash;
      track := TrackFor(systemState);
    }

    /**
     * The token effect: a token in the fragment is stored, used, and the
     * fragment cleared; failing that a stored token is used.
     */
    method LoadToken()
      modifies this
      ensures var src := ChooseToken(HashParams(old(locationHash)), old(storedToken));
        && (src.FromHash? ==> spotifyToken == Some(src.token) && storedToken == Some(src.token) && locationHash == "")
        && (src.FromStorage? ==> spotifyToken == Some(src.token) && storedToken == old(storedToken) && locationHash == old(locationHash))
        && (src.NoToken? ==> spotifyToken == old(spotifyToken) && storedToken == old(storedToken) && locationHash == old(locationHash))
      ensures isPlaying == old(isPlaying) && deviceId == old(deviceId) && trackName == old(trackName)
    {
      var params := ParseHash(locationHash);
      var src := ChooseToken(params, storedToken);
      match src {
        case FromHash(t) =>
          storedToken := Some(t);
          spotifyToken := Some(t);
          locationHash := "";
        case FromStorage(t) =>
          spotifyToken := Some(t);
        case NoToken =>
      }
    }

    /** The SDK's `ready` event: the device to play on. */
    method DeviceReady(id: string)
      modifies this
      ensures deviceId == Some(id)
      ensures spotifyToken == old(spotifyToken) && isPlaying == old(isPlaying) && trackName == old(trackName)
      ensures storedToken == old(storedToken) && locationHash == old(locationHash)
    {
      deviceId := Some(id);
    }

    /** The SDK's `player_state_changed` event; a null state is ignored. */
    method StateChanged(state: Option<PlayerState>)
      modifies this
      ensures state.None? ==> isPlaying == old(isPlaying) && trackName == old(trackName)
      ensures state.Some? ==> isPlaying == !state.value.paused
      ensures state.Some? ==> trackName == if Truthy(state.value.currentTrack) then state.value.currentTrack.value else "Unknown Track"
      ensures spotifyToken == old(spotifyToken) && deviceId == old(deviceId)
      ensures storedToken == old(storedToken) && locationHash == old(locationHash)
    {
      if state.Some? {
        isPlaying := !state.value.paused;
        trackName := if Truthy(state.value.currentTrack) then state.value.currentTrack.value else "Unknown Track";
      }
    }

    /**
     * `togglePlay`: pauses when playing. Otherwise, with a token and a
     * device, sends the play request for the track; playback is marked
     * started when the request resolves and an error shown when it is
     * rejected. Without both, nothing is sent.
     */
    method TogglePlay(requestResolves: bool) returns (outcome: ToggleOutcome)
      modifies this
      ensures old(isPlaying) ==> outcome == Paused && !isPlaying
      ensures !old(isPlaying) && Truthy(spotifyToken) && Truthy(deviceId) ==>
        var request := PlayRequest(deviceId.value, spotifyToken.value, [track]);
        && (requestResolves ==> outcome == Playing(request) && isPlaying)
        && (!requestResolves ==> outcome == PlayFailed(request, PlayFailedMessage) && !isPlaying)
      ensures !old(isPlaying) && !(Truthy(spotifyToken) && Truthy(deviceId)) ==>
        outcome == NotConnected(NotConnectedMessage) && !isPlaying
      ensures spotifyToken == old(spotifyToken) && deviceId == old(deviceId) && trackName == old(trackName)
      ensures storedToken == old(storedToken) && locationHash == old(locationHash)
    {
      if isPlaying {
        isPlaying := false;
        return Paused;
      }
      if Truthy(spotifyToken) && Truthy(deviceId) {
        var request := PlayRequest(deviceId.value, spotifyToken.value, [track]);
        if requestResolves {
          isPlaying := true;
          outcome := Playing(request);
        } else {
          outcome := PlayFailed(request, PlayFailedMessage);
        }
      } else {
        outcome := NotConnected(NotConnectedMessage);
      }
    }
  }
}
