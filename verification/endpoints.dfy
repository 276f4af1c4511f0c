/** Module-level configuration of run.py: the API base URL with trailing slashes
    removed, the WebSocket URL derived from it, the topic and HTTP paths built
    from a board id, and the subscription id. */
module Endpoints {
  import opened Wrappers
  import opened Text
  import opened Decimal

  /** Used when the `API_URL` environment variable is unset or empty. */
  const DefaultApiUrl: string := "https://chess.cslab.top/api"

  /** The `API_URL` setting, where None stands for an unset variable: an unset or
      empty variable falls back to the default URL. */
  function ApiUrlSetting(env: Option<string>): (url: string)
    ensures url != ""
    ensures env.Some? && env.value != "" ==> url == env.value
    ensures env.None? || env.value == "" ==> url == DefaultApiUrl
  {
    if env.Some? && env.value != "" then env.value else DefaultApiUrl
  }

  /** The loop that removes the last character while it is a slash. When every
      character is a slash the loop empties the string and the next look at the
      last character raises IndexError: None. */
  function TrimTrailingSlashes(url: string): (r: Option<string>)
    ensures r.None? <==> forall k :: 0 <= k < |url| ==> url[k] == '/'
    ensures r.Some? ==> 0 < |r.value| <= |url|
    ensures r.Some? ==> forall k :: 0 <= k < |r.value| ==> r.value[k] == url[k]
    ensures r.Some? ==> r.value[|r.value| - 1] != '/'
    ensures r.Some? ==> forall k :: |r.value| <= k < |url| ==> url[k] == '/'
  {
    if |url| == 0 then None
    else if url[|url| - 1] == '/' then TrimTrailingSlashes(url[..|url| - 1])
    else Some(url)
  }

  /** The trimming loop is guarded by a truth test of the URL, so only a non-empty
      URL is trimmed. It fails exactly when a non-empty URL is all slashes; the
      result is a prefix of the URL, empty only for the empty URL, and never ends
      with a slash. */
  function NormalizeApiUrl(url: string): (r: Option<string>)
    ensures r.None? <==> |url| > 0 && forall k :: 0 <= k < |url| ==> url[k] == '/'
    ensures r.Some? ==> |r.value| <= |url| && (r.value == "" <==> url == "")
    ensures r.Some? ==> forall k :: 0 <= k < |r.value| ==> r.value[k] == url[k]
    ensures r.Some? && r.value != "" ==> r.value[|r.value| - 1] != '/'
    ensures r.Some? ==> forall k :: |r.value| <= k < |url| ==> url[k] == '/'
  {
    if url == "" then Some("") else TrimTrailingSlashes(url)
  }

  /** Trimming is idempotent: a trimmed URL is its own trim. */
  lemma TrimIdempotent(url: string)
    requires TrimTrailingSlashes(url).Some?
    ensures TrimTrailingSlashes(TrimTrailingSlashes(url).value) == TrimTrailingSlashes(url)
  {
    var t := TrimTrailingSlashes(url).value;
    assert t[|t| - 1] != '/';
  }

  function Slashes(k: nat): (s: string)
    ensures |s| == k && forall i :: 0 <= i < k ==> s[i] == '/'
  {
    if k == 0 then "" else Slashes(k - 1) + "/"
  }

  /** Trailing slashes make no difference: a URL and the same URL with any number of
      extra slashes appended trim to the same result. */
  lemma {:induction false} TrimIgnoresTrailingSlashes(url: string, k: nat)
    ensures TrimTrailingSlashes(url + Slashes(k)) == TrimTrailingSlashes(url)
  {
    if k > 0 {
      var u := url + Slashes(k);
      assert u[..|u| - 1] == url + Slashes(k - 1);
      TrimDropsSlash(u);
      TrimIgnoresTrailingSlashes(url, k - 1);
    } else {
      assert url + Slashes(0) == url;
    }
  }

  lemma TrimDropsSlash(u: string)
    requires |u| > 0 && u[|u| - 1] == '/'
    ensures TrimTrailingSlashes(u) == TrimTrailingSlashes(u[..|u| - 1])
  {
  }

  /** The WebSocket URL: the first four characters of the API URL (the `http` of
      its scheme) replaced by `ws`, and the broker's path appended. */
  function WsUrl(api: string): (r: string)
    ensures |r| == 2 + (if |api| >= 4 then |api| - 4 else 0) + |SockPath|
    ensures r[..2] == "ws" && r[|r| - |SockPath|..] == SockPath
    ensures forall k :: 4 <= k < |api| ==> r[k - 2] == api[k]
  {
    var r := "ws" + Drop(api, 4) + SockPath;
    assert r[|r| - |SockPath|..] == SockPath;
    r
  }

  /** The broker's plain-WebSocket endpoint path. */
  const SockPath: string := "/ws/no_sockjs"

  /** The two URLs the client is configured with. */
  datatype Urls = Urls(api: string, ws: string)

  /** The module's start-up configuration: read the setting, trim it, derive the
      WebSocket URL. None when the configured URL consists of slashes only. */
  function Configure(env: Option<string>): (r: Option<Urls>)
    ensures r.None? <==> forall k :: 0 <= k < |ApiUrlSetting(env)| ==> ApiUrlSetting(env)[k] == '/'
    ensures r.Some? ==> Some(r.value.api) == TrimTrailingSlashes(ApiUrlSetting(env))
    ensures r.Some? ==> r.value.ws == WsUrl(r.value.api)
    ensures r.Some? ==> r.value.api != "" && r.value.api[|r.value.api| - 1] != '/'
  {
    match NormalizeApiUrl(ApiUrlSetting(env))
    case None => None
    case Some(api) => Some(Urls(api, WsUrl(api)))
  }

  /** A secure HTTP base becomes a secure WebSocket URL, a plain one a plain one. */
  lemma WsUrlScheme(rest: string)
    ensures WsUrl("https://" + rest) == "wss://" + rest + SockPath
    ensures WsUrl("http://" + rest) == "ws://" + rest + SockPath
  {
    var secure, plain := "https://" + rest, "http://" + rest;
    assert secure[4..] == "s://" + rest;
    assert Drop(secure, 4) == "s://" + rest;
    assert "ws" + ("s://" + rest) == "wss://" + rest;
    assert plain[4..] == "://" + rest;
    assert Drop(plain, 4) == "://" + rest;
    assert "ws" + ("://" + rest) == "ws://" + rest;
  }

  /** The fixed pieces of the request paths and of the topic. */
  const FindPath: string := "/boards/find?game=1&user=10170"
  const BoardsPath: string := "/boards/"
  const UpdateSuffix: string := "/update"
  const TopicPrefix: string := "/topic/boards/"
  const TopicSuffix: string := "/next_step"

  /** The board lookup request of `Client.subscribe`: the API base followed by the
      lookup path for game 1 and the fixed user 10170. */
  function FindBoardUrl(api: string): (r: string)
    ensures |r| == |api| + |FindPath|
    ensures r[..|api|] == api && r[|api|..] == FindPath
  {
    api + FindPath
  }

  /** The request of `Client.update_board`: the API base, `/boards/`, the board's id
      in decimal, `/update`. */
  function UpdateBoardUrl(api: string, boardId: int): (r: string)
    ensures |r| == |api| + |BoardsPath| + |IntToString(boardId)| + |UpdateSuffix|
    ensures r[..|api|] == api
    ensures r[|api|..|api| + |BoardsPath|] == BoardsPath
    ensures r[|api| + |BoardsPath|..|r| - |UpdateSuffix|] == IntToString(boardId)
    ensures r[|r| - |UpdateSuffix|..] == UpdateSuffix
  {
    var r := api + BoardsPath + IntToString(boardId) + UpdateSuffix;
    assert r == api + (BoardsPath + (IntToString(boardId) + UpdateSuffix));
    r
  }

  /** The STOMP destination a board's next steps are published on:
      `/topic/boards/`, the board's id in decimal, `/next_step`. */
  function NextStepTopic(boardId: int): (t: string)
    ensures |t| == |TopicPrefix| + |IntToString(boardId)| + |TopicSuffix|
    ensures t[..|TopicPrefix|] == TopicPrefix
    ensures t[|TopicPrefix|..|t| - |TopicSuffix|] == IntToString(boardId)
    ensures t[|t| - |TopicSuffix|..] == TopicSuffix
  {
    var t := TopicPrefix + IntToString(boardId) + TopicSuffix;
    assert t == TopicPrefix + (IntToString(boardId) + TopicSuffix);
    t
  }

  /** Boards with different ids have different topics. */
  lemma NextStepTopicInjective(a: int, b: int)
    ensures NextStepTopic(a) == NextStepTopic(b) <==> a == b
  {
    if NextStepTopic(a) == NextStepTopic(b) {
      IntToStringInjective(a, b);
    }
  }

  /** Different boards have different update requests under the same API base. */
  lemma UpdateBoardUrlInjective(api: string, a: int, b: int)
    ensures UpdateBoardUrl(api, a) == UpdateBoardUrl(api, b) <==> a == b
  {
    if UpdateBoardUrl(api, a) == UpdateBoardUrl(api, b) {
      IntToStringInjective(a, b);
    }
  }

  /** `generate_sub_id`: `sub-<ms timestamp>-<random, zero-padded to 3 digits>`,
      with the clock reading and the `randint` draw as parameters. */
  function SubId(timestamp: nat, random: nat): (id: string)
    ensures |id| >= 9 && id[..4] == "sub-"
    ensures random <= 999 ==> id[|id| - 4] == '-' && AllDigits(id[|id| - 3..])
  {
    ZeroPad3Value(random);
    "sub-" + NatToString(timestamp) + "-" + ZeroPad3(random)
  }

  /** Reads a subscription id back: `sub-`, the timestamp's decimal without
      leading zeros (as `str` writes it), `-`, digits. */
  function ParseSubId(id: string): Option<(nat, nat)> {
    if |id| < 4 || id[..4] != "sub-" then None
    else
      var body := id[4..];
      var k := FirstIndexOf(body, '-');
      if k == 0 || k >= |body| - 1 then None
      else if !AllDigits(body[..k]) || !AllDigits(body[k + 1..]) then None
      else if k > 1 && body[0] == '0' then None
      else Some((DigitsValue(body[..k]), DigitsValue(body[k + 1..])))
  }

  /** The id carries its timestamp and random draw recoverably; for a draw in
      0..999 the suffix is exactly three digits. */
  lemma SubIdRoundTrip(timestamp: nat, random: nat)
    ensures ParseSubId(SubId(timestamp, random)) == Some((timestamp, random))
    ensures random <= 999 ==> SubId(timestamp, random)[|SubId(timestamp, random)| - 3..] == ZeroPad3(random)
  {
    var id := SubId(timestamp, random);
    var d, p := NatToString(timestamp), ZeroPad3(random);
    var body := id[4..];
    assert body == d + "-" + p;
    FirstIndexAfterDigits(d, p);
    assert body[..|d|] == d;
    assert body[|d| + 1..] == p;
    NatToStringValue(timestamp);
    ZeroPad3Value(random);
  }

  lemma FirstIndexAfterDigits(d: string, p: string)
    requires AllDigits(d)
    ensures FirstIndexOf(d + "-" + p, '-') == |d|
  {
    var s := d + "-" + p;
    var k := FirstIndexOf(s, '-');
    assert s[|d|] == '-';
  }

  /** Different (timestamp, draw) pairs give different subscription ids. */
  lemma SubIdInjective(t1: nat, r1: nat, t2: nat, r2: nat)
    ensures SubId(t1, r1) == SubId(t2, r2) <==> t1 == t2 && r1 == r2
  {
    SubIdRoundTrip(t1, r1);
    SubIdRoundTrip(t2, r2);
  }
}
