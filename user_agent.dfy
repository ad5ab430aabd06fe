/**
 * The `RequireEmbed` extractor: decides from the `User-Agent` request header
 * whether a request comes from a service that is building an embed card
 * (Discord, Slack, Telegram, ...) or from a person following the link.
 */
module UserAgent {
  import opened Wrappers

  /** `IMAGE_EMBED_USERAGENTS`: the agents matched by exact equality. The first entry appears twice. */
  const ImageEmbedUserAgents: seq<string> := [
    "facebookexternalhit/1.1",
    "Mozilla/5.0 (Windows NT 6.1; WOW64) AppleWebKit/537.36 (KHTML, like Gecko) Chrome/31.0.1650.57 Safari/537.36",
    "Mozilla/5.0 (Windows; U; Windows NT 10.0; en-US; Valve Steam Client/default/1596241936; ) AppleWebKit/537.36 (KHTML, like Gecko) Chrome/79.0.3945.117 Safari/537.36",
    "Mozilla/5.0 (Windows; U; Windows NT 10.0; en-US; Valve Steam Client/default/0; ) AppleWebKit/537.36 (KHTML, like Gecko) Chrome/79.0.3945.117 Safari/537.36",
    "Mozilla/5.0 (Macintosh; Intel Mac OS X 10_11_1) AppleWebKit/601.2.4 (KHTML, like Gecko) Version/9.0.1 Safari/601.2.4 facebookexternalhit/1.1 Facebot Twitterbot/1.0",
    "facebookexternalhit/1.1",
    "Mozilla/5.0 (Windows; U; Windows NT 6.1; en-US; Valve Steam FriendsUI Tenfoot/0; ) AppleWebKit/537.36 (KHTML, like Gecko) Chrome/84.0.4147.105 Safari/537.36",
    "Slackbot-LinkExpanding 1.0 (+https://api.slack.com/robots)",
    "Mozilla/5.0 (Macintosh; Intel Mac OS X 10.10; rv:38.0) Gecko/20100101 Firefox/38.0",
    "Mozilla/5.0 (compatible; Discordbot/2.0; +https://discordapp.com)",
    "TelegramBot (like TwitterBot)",
    "Mozilla/5.0 (compatible; January/1.0; +https://gitlab.insrt.uk/revolt/january)",
    "Synapse (bot; +https://github.com/matrix-org/synapse)",
    "Iframely/1.3.1 (+https://iframely.com/docs/about)",
    "test"
  ]

  /** WhatsApp agents vary, so any agent containing this marker counts as an embed bot. */
  const WhatsAppMarker: string := "WhatsApp/"

  /** HTTP 400. */
  const BadRequest: nat := 400

  const MissingHeaderMessage: string := "`User-Agent` header is missing"

  /** The extractor's rejection: a status code and a static message. */
  datatype Rejection = Rejection(status: nat, message: string)

  /** `RequireEmbed(Some(header))` for an embed bot, `RequireEmbed(None)` for anyone else. */
  datatype RequireEmbed = RequireEmbed(agent: Option<string>)

  /** What `HeaderValue::to_str` accepts: tab and the printable ASCII range. */
  predicate IsVisibleAscii(s: string) {
    forall i :: 0 <= i < |s| ==> s[i] == '\t' || (' ' <= s[i] <= '~')
  }

  /** `pat` occurs in `s` starting at index `i`. */
  predicate OccursAt(s: string, pat: string, i: int) {
    0 <= i && i + |pat| <= |s| && s[i..i + |pat|] == pat
  }

  /** Occurrences in `s[1..]` are the occurrences in `s` shifted one place left. */
  lemma OccursInTail(s: string, pat: string)
    requires |s| > 0 && !OccursAt(s, pat, 0)
    ensures (exists i :: OccursAt(s[1..], pat, i)) <==> (exists i :: OccursAt(s, pat, i))
  {
    if i :| OccursAt(s[1..], pat, i) {
      assert s[1..][i..i + |pat|] == s[i + 1..i + 1 + |pat|];
      assert OccursAt(s, pat, i + 1);
    }
    if i :| OccursAt(s, pat, i) {
      assert i > 0;
      assert s[1..][i - 1..i - 1 + |pat|] == s[i..i + |pat|];
      assert OccursAt(s[1..], pat, i - 1);
    }
  }

  /** `str::contains`: a left-to-right search for `pat` in `s`. */
  function Contains(s: string, pat: string): (b: bool)
    ensures b <==> exists i :: OccursAt(s, pat, i)
    decreases |s|
  {
    if |s| < |pat| then false
    else if s[..|pat|] == pat then assert OccursAt(s, pat, 0); true
    else OccursInTail(s, pat); Contains(s[1..], pat)
  }

  /** The decision for a present header against a given list of exact agents. */
  function ClassifyAgainst(agents: seq<string>, agent: string): (r: RequireEmbed)
    ensures r.agent == None || r.agent == Some(agent)
    ensures r.agent.Some? <==> agent in agents || exists i :: OccursAt(agent, WhatsAppMarker, i)
  {
    var inEmbedList := agent in agents;
    var whatsAppInAgent := Contains(agent, WhatsAppMarker);
    match (inEmbedList, whatsAppInAgent)
    case (true, _) => RequireEmbed(Some(agent))
    case (_, true) => RequireEmbed(Some(agent))
    case _ => RequireEmbed(None)
  }

  /**
   * `RequireEmbed::from_request_parts`, given the `User-Agent` header if the
   * request has one. A present header must decode as visible ASCII.
   */
  function FromUserAgent(header: Option<string>): (r: Result<RequireEmbed, Rejection>)
    requires header.Some? ==> IsVisibleAscii(header.value)
    ensures header.None? <==> r.Err?
    ensures header.None? ==> r.error == Rejection(BadRequest, MissingHeaderMessage)
    ensures header.Some? ==> r.value.agent == None || r.value.agent == Some(header.value)
    ensures header.Some? ==>
      (r.value.agent.Some? <==> header.value in ImageEmbedUserAgents || exists i :: OccursAt(header.value, WhatsAppMarker, i))
  {
    match header
    case Some(agent) => Ok(ClassifyAgainst(ImageEmbedUserAgents, agent))
    case None => Err(Rejection(BadRequest, MissingHeaderMessage))
  }

  /** A header exactly equal to a listed agent is an embed bot, carrying the header. */
  lemma ListedAgentIsEmbed(k: nat)
    requires k < |ImageEmbedUserAgents| && IsVisibleAscii(ImageEmbedUserAgents[k])
    ensures var agent := ImageEmbedUserAgents[k];
      FromUserAgent(Some(agent)) == Ok(RequireEmbed(Some(agent)))
  {
  }

  /** Classifying any listed agent, without a condition on its characters, gives an embed bot carrying it. */
  lemma ListedAgentIsClassified(k: nat)
    requires k < |ImageEmbedUserAgents|
    ensures var agent := ImageEmbedUserAgents[k];
      ClassifyAgainst(ImageEmbedUserAgents, agent) == RequireEmbed(Some(agent))
  {
    assert ImageEmbedUserAgents[k] in ImageEmbedUserAgents;
  }

  /** A header containing the WhatsApp marker anywhere is an embed bot, whatever surrounds it. */
  lemma WhatsAppAnywhere(prefix: string, suffix: string)
    requires IsVisibleAscii(prefix + WhatsAppMarker + suffix)
    ensures var agent := prefix + WhatsAppMarker + suffix;
      FromUserAgent(Some(agent)) == Ok(RequireEmbed(Some(agent)))
  {
    var agent := prefix + WhatsAppMarker + suffix;
    assert agent[|prefix|..|prefix| + |WhatsAppMarker|] == WhatsAppMarker;
    assert OccursAt(agent, WhatsAppMarker, |prefix|);
  }

  /** Any other header is accepted as an ordinary visitor, never rejected. */
  lemma OtherAgentIsVisitor(agent: string)
    requires IsVisibleAscii(agent)
    requires agent !in ImageEmbedUserAgents
    requires forall i :: !OccursAt(agent, WhatsAppMarker, i)
    ensures FromUserAgent(Some(agent)) == Ok(RequireEmbed(None))
  {
  }

  /** Matching is exact: a listed agent with a character appended is not matched. */
  lemma NoPrefixMatching()
    ensures FromUserAgent(Some("test2")) == Ok(RequireEmbed(None))
  {
    assert "test2" !in ImageEmbedUserAgents;
  }

  /** The list without its duplicated sixth entry classifies every agent the same way. */
  lemma DuplicateIsHarmless(agent: string)
    ensures var deduplicated := ImageEmbedUserAgents[..5] + ImageEmbedUserAgents[6..];
      |deduplicated| == 14 && ClassifyAgainst(deduplicated, agent) == ClassifyAgainst(ImageEmbedUserAgents, agent)
  {
    var deduplicated := ImageEmbedUserAgents[..5] + ImageEmbedUserAgents[6..];
    assert ImageEmbedUserAgents[5] == ImageEmbedUserAgents[0] == deduplicated[0];
    assert forall k :: 0 <= k < 5 ==> deduplicated[k] == ImageEmbedUserAgents[k];
    assert forall k :: 6 <= k < 15 ==> deduplicated[k - 1] == ImageEmbedUserAgents[k];
    assert (agent in deduplicated) == (agent in ImageEmbedUserAgents);
  }
}
