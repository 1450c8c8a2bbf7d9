/** The two loops of main.py: the follower filter (main.py:26-35) and the
    per-streamer contact resolution (main.py:40-96) that appends one value to
    each of eight parallel lists.

    The collaborators are parameters: `followerOf` stands for
    `get_follower_count` (None when the count is not available),
    `aboutOf` for `scrape_twitch_about` (None when it catches a failing
    subprocess),
    `bioOf` for the `bio` field of `scrape_twitter_profile`, and `pageOf` for
    the text `requests.get` returns for a channel link. */
module Pipeline {
  import opened Wrappers
  import opened Text
  import opened Collections
  import opened Functions

  /** main.py:9 */
  const MinimumFollower: int := 50000

  /** One entry of the live-streams listing. */
  datatype LiveStream = LiveStream(userId: string, userName: string, viewerCount: int, language: string, gameName: string)

  /** The `streamer_info` dictionary of main.py:32-34. */
  datatype Streamer = Streamer(userName: string, viewerCount: int, language: string, gameName: string, followers: int)

  /** The test of main.py:31.  A count that could not be fetched does not
      pass; the source compares `None` with an int there, which raises. */
  predicate Passes(count: Option<int>, minimum: int)
  {
    count.Some? && count.value > minimum
  }

  function StreamerInfo(s: LiveStream, followers: int): Streamer
  {
    Streamer(s.userName, s.viewerCount, s.language, s.gameName, followers)
  }

  /** The streamers the loop of main.py:26-35 keeps, in input order. */
  function Kept(streams: seq<LiveStream>, followerOf: string -> Option<int>, minimum: int): (r: seq<Streamer>)
    ensures |r| <= |streams|
    ensures forall k | 0 <= k < |r| :: r[k].followers > minimum
  {
    if streams == [] then []
    else
      var s := streams[|streams| - 1];
      var count := followerOf(s.userId);
      Kept(streams[..|streams| - 1], followerOf, minimum)
        + (if Passes(count, minimum) then [StreamerInfo(s, count.value)] else [])
  }

  /** The filter keeps input order: filtering a concatenation filters each
      part in turn. */
  lemma {:induction false} KeptAppend(a: seq<LiveStream>, b: seq<LiveStream>, followerOf: string -> Option<int>, minimum: int)
    ensures Kept(a + b, followerOf, minimum) == Kept(a, followerOf, minimum) + Kept(b, followerOf, minimum)
    decreases |b|
  {
    if b == [] {
      assert a + b == a;
    } else {
      var init := b[..|b| - 1];
      assert (a + b)[..|a + b| - 1] == a + init;
      assert (a + b)[|a + b| - 1] == b[|b| - 1];
      KeptAppend(a, init, followerOf, minimum);
    }
  }

  /** A stream is kept iff its follower count is known and strictly above the
      minimum, and the kept record carries that count. */
  lemma {:induction false} KeptMembers(streams: seq<LiveStream>, followerOf: string -> Option<int>, minimum: int, r: Streamer)
    ensures r in Kept(streams, followerOf, minimum) <==>
      exists s | s in streams :: Passes(followerOf(s.userId), minimum) && r == StreamerInfo(s, followerOf(s.userId).value)
  {
    if streams != [] {
      var init := streams[..|streams| - 1];
      KeptMembers(init, followerOf, minimum, r);
      assert streams == init + [streams[|streams| - 1]];
    }
  }

  /** 50000 followers against a minimum of 50000 is dropped; 50001 is kept. */
  lemma ThresholdIsStrict()
    ensures !Passes(Some(50000), MinimumFollower)
    ensures Passes(Some(50001), MinimumFollower)
  {
  }

  /** The loop of main.py:26-35. */
  method CollectStreamers(streams: seq<LiveStream>, followerOf: string -> Option<int>, minimum: int)
    returns (streamers: seq<Streamer>)
    ensures streamers == Kept(streams, followerOf, minimum)
    ensures |streamers| <= |streams|
    ensures forall k | 0 <= k < |streamers| :: streamers[k].followers > minimum
  {
    streamers := [];
    for i := 0 to |streams|
      invariant streamers == Kept(streams[..i], followerOf, minimum)
    {
      assert streams[..i + 1][..i] == streams[..i];
      var follower := followerOf(streams[i].userId);
      if Passes(follower, minimum) {
        streamers := streamers + [StreamerInfo(streams[i], follower.value)];
      }
    }
    assert streams[..|streams|] == streams;
  }

  // ---------------------------------------------------------------------
  // Contact resolution
  // ---------------------------------------------------------------------

  /** The sentinels of main.py:60, 61, 66 and 94, as written there. */
  const NoDiscord: string := "Couldn't find discord"
  const NoYoutube: string := "Couldn't find youtube"
  const NoMail: string := "Couldn't find a valid mail"
  const NoGmail: string := "Couldn't find a valid gmail"

  /** What `scrape_twitch_about` returns: the `links` and `email` lists. */
  datatype AboutPage = AboutPage(links: seq<string>, emails: seq<string>)

  /** A failed scrape reads as a page with no links and no emails; the
      source calls `.get` on `None` at main.py:56, which raises. */
  function AboutOrEmpty(about: Option<AboutPage>): AboutPage
  {
    if about.Some? then about.value else AboutPage([], [])
  }

  /** The URL main.py:55 passes to `scrape_twitch_about`. */
  function AboutUrl(userName: string): string
  {
    "https://www.twitch.tv/" + userName + "/about"
  }

  /** A contact column: a sentinel, one value, or several joined by `sep`. */
  datatype Field = NotFound(sentinel: string) | Single(value: string) | Joined(values: seq<string>, sep: string)

  /** The string appended to the output list. */
  function Render(f: Field): string
  {
    match f
    case NotFound(s) => s
    case Single(v) => v
    case Joined(vs, sep) => Join(vs, sep)
  }

  /** One output row. */
  datatype ContactRecord = ContactRecord(
    username: string, followers: int, viewerCount: int, language: string, gameName: string,
    discord: Field, youtube: Field, gmail: Field)

  /** The case-insensitive substring test of main.py:70 and 72. */
  predicate Mentions(link: string, token: string)
  {
    Contains(Lower(link), token)
  }

  /** The links that mention `token`, in order, repeats kept (the lists
      `dc_links` and `twitter_links`). */
  function Bucket(links: seq<string>, token: string): seq<string>
  {
    if links == [] then []
    else
      var last := links[|links| - 1];
      Bucket(links[..|links| - 1], token) + (if Mentions(last, token) then [last] else [])
  }

  /** The set `yt_links`. */
  function YoutubeLinks(links: seq<string>): seq<string>
  {
    Dedup(Bucket(links, "youtube"))
  }

  lemma {:induction false} BucketMembers(links: seq<string>, token: string, l: string)
    ensures l in Bucket(links, token) <==> l in links && Mentions(l, token)
  {
    if links != [] {
      var init := links[..|links| - 1];
      BucketMembers(init, token, l);
      assert links == init + [links[|links| - 1]];
    }
  }

  /** The head of a bucket is the first link that mentions the token. */
  lemma {:induction false} BucketFirst(links: seq<string>, token: string) returns (i: nat)
    requires Bucket(links, token) != []
    ensures i < |links| && links[i] == Bucket(links, token)[0] && Mentions(links[i], token)
    ensures forall j | 0 <= j < i :: !Mentions(links[j], token)
  {
    var init := links[..|links| - 1];
    if Bucket(init, token) != [] {
      i := BucketFirst(init, token);
    } else {
      i := |links| - 1;
      forall j | 0 <= j < i ensures !Mentions(links[j], token) {
        BucketMembers(init, token, links[j]);
        assert links[j] == init[j];
      }
    }
  }

  /** The page texts of the given channel links, in order. */
  function Pages(links: seq<string>, pageOf: string -> string): seq<string>
  {
    seq(|links|, i requires 0 <= i < |links| => pageOf(links[i]))
  }

  /** The emails found in the bio of the first Twitter link (main.py:86-90). */
  function BioEmails(twitterLinks: seq<string>, bioOf: string -> string): seq<string>
  {
    if |twitterLinks| > 0 then ExtractEmails(bioOf(twitterLinks[0])) else []
  }

  /** The Discord column (main.py:72-73, 81-84): the first link that
      mentions "discord", or the sentinel. */
  function DiscordField(links: seq<string>): Field
  {
    var dc := Bucket(links, "discord");
    if |dc| == 0 then NotFound(NoDiscord) else Single(dc[0])
  }

  /** The YouTube column (main.py:70-71, 77-80). */
  function YoutubeField(links: seq<string>): Field
  {
    var yt := YoutubeLinks(links);
    if |yt| == 0 then NotFound(NoYoutube) else Joined(yt, ", ")
  }

  /** The set `mails_found` once the about page has links: the about-page
      emails, then the first Twitter bio's, then the YouTube pages'
      (main.py:58, 86-92). */
  function MailsFound(page: AboutPage, bioOf: string -> string, pageOf: string -> string): seq<string>
  {
    var seed := Union([], page.emails);
    var yt := YoutubeLinks(page.links);
    var bio := BioEmails(Bucket(page.links, "twitter"), bioOf);
    var m1 := if |bio| > 0 then Union(seed, bio) else seed;
    if |yt| > 0 then Union(m1, MergePages(PerPage(Pages(yt, pageOf)))) else m1
  }

  /** The email column: with no links, the about-page emails joined by ", "
      (main.py:62-67); otherwise `mails_found` joined by "," (main.py:93-96). */
  function GmailField(page: AboutPage, bioOf: string -> string, pageOf: string -> string): Field
  {
    if |page.links| == 0 then
      var seed := Union([], page.emails);
      if |seed| > 0 then Joined(seed, ", ") else NotFound(NoMail)
    else
      var m := MailsFound(page, bioOf, pageOf);
      if |m| == 0 then NotFound(NoGmail) else Joined(m, ",")
  }

  /** The record that one iteration of main.py:40-96 appends, with `"x" in i`
      of main.py:74 read as a test on the link.  With no links both buckets
      are empty, so the link columns are their sentinels. */
  function Resolve(s: Streamer, about: Option<AboutPage>, bioOf: string -> string, pageOf: string -> string): ContactRecord
  {
    var page := AboutOrEmpty(about);
    ContactRecord(s.userName, s.followers, s.viewerCount, s.language, s.gameName,
      DiscordField(page.links), YoutubeField(page.links), GmailField(page, bioOf, pageOf))
  }

  /** With no socials, both link columns hold their sentinels, the email
      column holds the about-page emails once each (joined by ", ") or
      "Couldn't find a valid mail", and no Twitter bio or channel page is
      consulted. */
  lemma NoSocials(s: Streamer, about: Option<AboutPage>, bioOf: string -> string, pageOf: string -> string,
                  bioOf': string -> string, pageOf': string -> string)
    requires AboutOrEmpty(about).links == []
    ensures var r := Resolve(s, about, bioOf, pageOf);
      && r.discord == NotFound(NoDiscord)
      && r.youtube == NotFound(NoYoutube)
      && (r.gmail == NotFound(NoMail) <==> AboutOrEmpty(about).emails == [])
      && (r.gmail.NotFound? || r.gmail.Joined?)
      && (r.gmail.Joined? ==>
            && r.gmail.sep == ", " && NoDups(r.gmail.values)
            && forall x :: x in r.gmail.values <==> x in AboutOrEmpty(about).emails)
    ensures Resolve(s, about, bioOf, pageOf) == Resolve(s, about, bioOf', pageOf')
  {
    var emails := AboutOrEmpty(about).emails;
    if emails != [] {
      assert emails[0] in Union([], emails);
    }
  }

  /** The YouTube column is the sentinel iff no link mentions "youtube";
      otherwise it holds each such link once, joined by ", ". */
  lemma YoutubeColumn(s: Streamer, about: Option<AboutPage>, bioOf: string -> string, pageOf: string -> string)
    ensures var r := Resolve(s, about, bioOf, pageOf); var links := AboutOrEmpty(about).links;
      && (r.youtube.NotFound? || r.youtube.Joined?)
      && (r.youtube.NotFound? <==> forall l | l in links :: !Mentions(l, "youtube"))
      && (r.youtube.NotFound? ==> r.youtube == NotFound(NoYoutube))
      && (r.youtube.Joined? ==>
            && r.youtube.sep == ", " && NoDups(r.youtube.values)
            && forall l :: l in r.youtube.values <==> l in links && Mentions(l, "youtube"))
  {
    var links := AboutOrEmpty(about).links;
    var yt := YoutubeLinks(links);
    forall l ensures l in yt <==> l in links && Mentions(l, "youtube") {
      BucketMembers(links, "youtube", l);
    }
    if yt != [] {
      assert yt[0] in yt;
    }
  }

  /** The Discord column is the sentinel iff no link mentions "discord";
      otherwise it is the first such link alone. */
  lemma DiscordColumn(s: Streamer, about: Option<AboutPage>, bioOf: string -> string, pageOf: string -> string)
    ensures var r := Resolve(s, about, bioOf, pageOf); var links := AboutOrEmpty(about).links;
      && (r.discord.NotFound? || r.discord.Single?)
      && (r.discord.NotFound? <==> forall l | l in links :: !Mentions(l, "discord"))
      && (r.discord.NotFound? ==> r.discord == NotFound(NoDiscord))
      && (r.discord.Single? ==> exists i | 0 <= i < |links| ::
            && links[i] == r.discord.value && Mentions(links[i], "discord")
            && forall j | 0 <= j < i :: !Mentions(links[j], "discord"))
  {
    var links := AboutOrEmpty(about).links;
    forall l ensures l in Bucket(links, "discord") <==> l in links && Mentions(l, "discord") {
      BucketMembers(links, "discord", l);
    }
    if Bucket(links, "discord") != [] {
      var i := BucketFirst(links, "discord");
    }
  }

  /** The buckets are not exclusive: a link that mentions both "youtube" and
      "discord" is in both. */
  lemma BucketsOverlap(links: seq<string>, l: string)
    requires l in links && Mentions(l, "youtube") && Mentions(l, "discord")
    ensures l in YoutubeLinks(links) && l in Bucket(links, "discord")
  {
    BucketMembers(links, "youtube", l);
    BucketMembers(links, "discord", l);
  }

  /** Where an address in the email column can come from, once the about page
      has links: the about-page emails, the bio of the first Twitter link, or
      the page of a YouTube link. */
  ghost predicate MailSource(page: AboutPage, bioOf: string -> string, pageOf: string -> string, x: string)
  {
    || x in page.emails
    || x in BioEmails(Bucket(page.links, "twitter"), bioOf)
    || exists l | l in page.links && Mentions(l, "youtube") :: x in ExtractEmails(pageOf(l))
  }

  /** The emails scraped from the channel pages of `ls` are those found on
      the page of some link of `ls`. */
  lemma ChannelMails(ls: seq<string>, pageOf: string -> string, x: string)
    ensures x in MergePages(PerPage(Pages(ls, pageOf))) <==> exists l | l in ls :: x in ExtractEmails(pageOf(l))
  {
    var pages := Pages(ls, pageOf);
    PerPageMembers(pages, x);
    forall l | l in ls && x in ExtractEmails(pageOf(l))
      ensures exists i | 0 <= i < |pages| :: x in ExtractEmails(pages[i])
    {
      var i :| 0 <= i < |ls| && ls[i] == l;
      assert pages[i] == pageOf(l);
    }
    if exists i | 0 <= i < |pages| :: x in ExtractEmails(pages[i]) {
      var i :| 0 <= i < |pages| && x in ExtractEmails(pages[i]);
      assert ls[i] in ls;
    }
  }

  /** `mails_found` holds each address from the three sources, and only those. */
  lemma MailsFoundMembers(page: AboutPage, bioOf: string -> string, pageOf: string -> string, x: string)
    ensures NoDups(MailsFound(page, bioOf, pageOf))
    ensures x in MailsFound(page, bioOf, pageOf) <==> MailSource(page, bioOf, pageOf, x)
  {
    var yt := YoutubeLinks(page.links);
    ChannelMails(yt, pageOf, x);
    forall l ensures l in yt <==> l in page.links && Mentions(l, "youtube") {
      BucketMembers(page.links, "youtube", l);
    }
  }

  /** The email column holds every address from the three sources exactly
      once, joined by ","; it is "Couldn't find a valid gmail" iff there is
      none. */
  lemma EmailColumn(s: Streamer, about: Option<AboutPage>, bioOf: string -> string, pageOf: string -> string, x: string)
    requires AboutOrEmpty(about).links != []
    ensures var r := Resolve(s, about, bioOf, pageOf); var page := AboutOrEmpty(about);
      && (r.gmail.NotFound? || r.gmail.Joined?)
      && (r.gmail.NotFound? ==> r.gmail == NotFound(NoGmail) && !MailSource(page, bioOf, pageOf, x))
      && (r.gmail.Joined? ==>
            && r.gmail.sep == "," && NoDups(r.gmail.values) && |r.gmail.values| > 0
            && (x in r.gmail.values <==> MailSource(page, bioOf, pageOf, x)))
  {
    MailsFoundMembers(AboutOrEmpty(about), bioOf, pageOf, x);
  }

  /** Only the first Twitter link's bio is read. */
  lemma OnlyFirstBio(s: Streamer, about: Option<AboutPage>, bioOf: string -> string, bioOf': string -> string, pageOf: string -> string)
    requires var tw := Bucket(AboutOrEmpty(about).links, "twitter"); tw != [] ==> bioOf(tw[0]) == bioOf'(tw[0])
    ensures Resolve(s, about, bioOf, pageOf) == Resolve(s, about, bioOf', pageOf)
  {
  }

  /** Channel pages are fetched only for YouTube links, so none is fetched
      when the YouTube bucket is empty. */
  lemma OnlyYoutubePages(s: Streamer, about: Option<AboutPage>, bioOf: string -> string, pageOf: string -> string, pageOf': string -> string)
    requires forall l | l in AboutOrEmpty(about).links && Mentions(l, "youtube") :: pageOf(l) == pageOf'(l)
    ensures Resolve(s, about, bioOf, pageOf) == Resolve(s, about, bioOf, pageOf')
  {
    var links := AboutOrEmpty(about).links;
    var yt := YoutubeLinks(links);
    forall i | 0 <= i < |yt| ensures pageOf(yt[i]) == pageOf'(yt[i]) {
      BucketMembers(links, "youtube", yt[i]);
    }
    assert Pages(yt, pageOf) == Pages(yt, pageOf');
  }

  /** Filtering a concatenation filters each part in turn. */
  lemma {:induction false} BucketAppend(a: seq<string>, b: seq<string>, token: string)
    ensures Bucket(a + b, token) == Bucket(a, token) + Bucket(b, token)
    decreases |b|
  {
    if b == [] {
      assert a + b == a;
    } else {
      var init := b[..|b| - 1];
      assert (a + b)[..|a + b| - 1] == a + init;
      assert (a + b)[|a + b| - 1] == b[|b| - 1];
      BucketAppend(a, init, token);
    }
  }

  /** A Python value on the right of `in`: the loop index `i` of main.py:40
      is an int, a link is a string. */
  datatype PyValue = PyInt(n: int) | PyStr(s: string)

  /** Python's `needle in hay`: a substring test on a string; on an int it
      raises TypeError, modelled as `None`. */
  function PyIn(needle: string, hay: PyValue): Option<bool>
  {
    match hay
    case PyInt(_) => None
    case PyStr(s) => Some(Contains(s, needle))
  }

  /** The test of main.py:74 as written, `"x" in i or "twitter" in
      str(link).lower()`, with `left` the value of `i`.  `or` evaluates its
      left operand first and stops when that is true. */
  function TwitterTestAsWritten(left: PyValue, link: string): Option<bool>
  {
    match PyIn("x", left)
    case None => None
    case Some(true) => Some(true)
    case Some(false) => PyIn("twitter", PyStr(Lower(link)))
  }

  /** The Twitter list that the loop of main.py:69-75 builds as written, or
      `None` when a test raised. */
  function TwitterLinksAsWritten(left: PyValue, socials: seq<string>): Option<seq<string>>
  {
    if socials == [] then Some([])
    else
      match TwitterTestAsWritten(left, socials[0])
      case None => None
      case Some(t) =>
        match TwitterLinksAsWritten(left, socials[1..])
        case None => None
        case Some(rest) => Some((if t then [socials[0]] else []) + rest)
  }

  /** As written, the link loop raises for every streamer with at least one
      link, because the index of main.py:40 is an int. */
  lemma LinkLoopRaises(i: int, socials: seq<string>)
    requires socials != []
    ensures TwitterLinksAsWritten(PyInt(i), socials).None?
  {
  }

  /** The counterexample: a Twitter link raises as written, and the
      corrected test puts it in the Twitter list. */
  lemma TwitterLinkRaises(i: int)
    ensures TwitterLinksAsWritten(PyInt(i), ["https://twitter.com/z"]).None?
    ensures Bucket(["https://twitter.com/z"], "twitter") == ["https://twitter.com/z"]
  {
    var link := "https://twitter.com/z";
    assert Lower(link) == link;
    assert OccursAt(Lower(link), "twitter", 8);
    BucketSingle(link, "twitter");
  }

  /** With a string left operand that does not contain "x", the test of
      main.py:74 is `"twitter"` in the lower-cased link. */
  lemma TwitterTestCorrected(left: string, link: string)
    requires !Contains(left, "x")
    ensures TwitterTestAsWritten(PyStr(left), link) == Some(Mentions(link, "twitter"))
  {
  }

  /** The bucket of a single link. */
  lemma BucketSingle(link: string, token: string)
    ensures Bucket([link], token) == if Mentions(link, token) then [link] else []
  {
    assert [link][..0] == [];
  }

  /** The corrected Twitter list is what the loop as written builds when
      the left operand of main.py:74 is a string without "x": the test then
      reduces to `"twitter"` in the lower-cased link. */
  lemma {:induction false} TwitterLinksCorrected(left: string, socials: seq<string>)
    requires !Contains(left, "x")
    ensures TwitterLinksAsWritten(PyStr(left), socials) == Some(Bucket(socials, "twitter"))
  {
    if socials != [] {
      var link := socials[0];
      TwitterLinksCorrected(left, socials[1..]);
      TwitterTestCorrected(left, link);
      BucketSingle(link, "twitter");
      assert socials == [link] + socials[1..];
      BucketAppend([link], socials[1..], "twitter");
    }
  }

  /** The link loop of main.py:69-75, with the test of main.py:74 on the
      link itself. */
  method SortLinks(socials: seq<string>) returns (ytLinks: seq<string>, dcLinks: seq<string>, twitterLinks: seq<string>)
    ensures ytLinks == YoutubeLinks(socials)
    ensures dcLinks == Bucket(socials, "discord")
    ensures twitterLinks == Bucket(socials, "twitter")
  {
    ytLinks, dcLinks, twitterLinks := [], [], [];
    for i := 0 to |socials|
      invariant ytLinks == Dedup(Bucket(socials[..i], "youtube"))
      invariant dcLinks == Bucket(socials[..i], "discord")
      invariant twitterLinks == Bucket(socials[..i], "twitter")
    {
      var link := socials[i];
      assert socials[..i + 1][..i] == socials[..i];
      ghost var before := Bucket(socials[..i], "youtube");
      if Mentions(link, "youtube") {
        assert (before + [link])[..|before|] == before;
        if link !in ytLinks {
          ytLinks := ytLinks + [link];
        }
      } else {
        assert Bucket(socials[..i + 1], "youtube") == before;
      }
      if Mentions(link, "discord") {
        dcLinks := dcLinks + [link];
      }
      if Mentions(link, "twitter") {
        twitterLinks := twitterLinks + [link];
      }
    }
    assert socials[..|socials|] == socials;
  }

  /** The email steps of main.py:86-92 that follow the link loop: add the
      emails of the first Twitter bio, then those of the YouTube channel
      pages, to the set seeded with the about-page emails (main.py:58). */
  method CollectMails(page: AboutPage, seed: seq<string>, twitterLinks: seq<string>, ytLinks: seq<string>,
                      bioOf: string -> string, pageOf: string -> string)
    returns (mailsFound: seq<string>)
    requires seed == Union([], page.emails)
    requires twitterLinks == Bucket(page.links, "twitter") && ytLinks == YoutubeLinks(page.links)
    ensures mailsFound == MailsFound(page, bioOf, pageOf)
    ensures NoDups(mailsFound)
  {
    mailsFound := seed;
    if |twitterLinks| > 0 {
      var bio := bioOf(twitterLinks[0]);
      var found := ExtractEmails(bio);
      if |found| > 0 {
        mailsFound := Union(mailsFound, found);
      }
    }
    if |ytLinks| > 0 {
      var ytMails := ScrapeYoutube(Pages(ytLinks, pageOf));
      mailsFound := Union(mailsFound, ytMails);
    }
  }

  /** The contact columns of one iteration of main.py:55-96, computed the way
      that code computes them: the early exit when the about page has no
      links, the link loop, the first Twitter bio, the YouTube pages. */
  method ResolveContacts(page: AboutPage, bioOf: string -> string, pageOf: string -> string)
    returns (discord: string, youtube: string, gmail: string)
    ensures discord == Render(DiscordField(page.links))
    ensures youtube == Render(YoutubeField(page.links))
    ensures gmail == Render(GmailField(page, bioOf, pageOf))
  {
    var mailsFound: seq<string> := [];
    var socials := page.links;
    mailsFound := Union(mailsFound, page.emails);
    if |socials| == 0 {
      discord := NoDiscord;
      youtube := NoYoutube;
      if |mailsFound| > 0 {
        gmail := Join(mailsFound, ", ");
      } else {
        gmail := NoMail;
      }
      assert YoutubeField(socials) == NotFound(NoYoutube);
      return;
    }
    var ytLinks, dcLinks, twitterLinks := SortLinks(socials);
    if |ytLinks| == 0 {
      youtube := NoYoutube;
      assert YoutubeField(socials) == NotFound(NoYoutube);
    } else {
      youtube := Join(ytLinks, ", ");
      assert YoutubeField(socials) == Joined(ytLinks, ", ");
    }
    if |dcLinks| == 0 {
      discord := NoDiscord;
    } else {
      discord := dcLinks[0];
    }
    mailsFound := CollectMails(page, mailsFound, twitterLinks, ytLinks, bioOf, pageOf);
    if |mailsFound| == 0 {
      gmail := NoGmail;
      assert GmailField(page, bioOf, pageOf) == NotFound(NoGmail);
    } else {
      DedupOfNoDups(mailsFound);
      gmail := Join(Dedup(mailsFound), ",");
      assert GmailField(page, bioOf, pageOf) == Joined(mailsFound, ",");
    }
  }

  /** The module-level output lists of main.py:16-23. */
  class ContactSheet {
    var username: seq<string>
    var followers: seq<int>
    var viewerCount: seq<int>
    var language: seq<string>
    var gameName: seq<string>
    var discord: seq<string>
    var youtube: seq<string>
    var gmail: seq<string>

    /** The eight lists stay parallel. */
    ghost predicate Valid()
      reads this
    {
      && |followers| == |username| && |viewerCount| == |username| && |language| == |username|
      && |gameName| == |username| && |discord| == |username| && |youtube| == |username| && |gmail| == |username|
    }

    /** Row `k` of the sheet is the rendering of `r`. */
    ghost predicate RowIs(k: int, r: ContactRecord)
      reads this
      requires Valid()
    {
      && 0 <= k < |username|
      && username[k] == r.username && followers[k] == r.followers && viewerCount[k] == r.viewerCount
      && language[k] == r.language && gameName[k] == r.gameName
      && discord[k] == Render(r.discord) && youtube[k] == Render(r.youtube) && gmail[k] == Render(r.gmail)
    }

    /** The sheet holds exactly the rows `rows`, in order. */
    ghost predicate Holds(rows: seq<ContactRecord>)
      reads this
    {
      Valid() && |username| == |rows| && forall k | 0 <= k < |rows| :: RowIs(k, rows[k])
    }

    constructor ()
      ensures Valid() && username == [] && followers == [] && viewerCount == [] && language == []
      ensures gameName == [] && discord == [] && youtube == [] && gmail == []
    {
      username, followers, viewerCount, language := [], [], [], [];
      gameName, discord, youtube, gmail := [], [], [], [];
    }

    /** Appends one row to the eight lists (main.py:41-45 and the column
        appends of main.py:60-96). */
    method AppendRow(u: string, f: int, v: int, l: string, g: string, d: string, y: string, m: string)
      requires Valid()
      modifies this
      ensures Valid()
      ensures username == old(username) + [u] && followers == old(followers) + [f]
      ensures viewerCount == old(viewerCount) + [v] && language == old(language) + [l]
      ensures gameName == old(gameName) + [g] && discord == old(discord) + [d]
      ensures youtube == old(youtube) + [y] && gmail == old(gmail) + [m]
    {
      username := username + [u];
      followers := followers + [f];
      viewerCount := viewerCount + [v];
      language := language + [l];
      gameName := gameName + [g];
      discord := discord + [d];
      youtube := youtube + [y];
      gmail := gmail + [m];
    }

    /** One iteration of main.py:40-96 for streamer `s`. */
    method AddStreamer(s: Streamer, aboutOf: string -> Option<AboutPage>, bioOf: string -> string, pageOf: string -> string,
                       ghost rows: seq<ContactRecord>)
      returns (ghost row: ContactRecord)
      requires Holds(rows)
      modifies this
      ensures row == ResolveFor(s, aboutOf, bioOf, pageOf)
      ensures Holds(rows + [row])
      ensures username == old(username) + [row.username] && followers == old(followers) + [row.followers]
      ensures viewerCount == old(viewerCount) + [row.viewerCount] && language == old(language) + [row.language]
      ensures gameName == old(gameName) + [row.gameName] && discord == old(discord) + [Render(row.discord)]
      ensures youtube == old(youtube) + [Render(row.youtube)] && gmail == old(gmail) + [Render(row.gmail)]
    {
      var about := aboutOf(AboutUrl(s.userName));
      var discordCol, youtubeCol, gmailCol := ResolveContacts(AboutOrEmpty(about), bioOf, pageOf);
      row := ResolveFor(s, aboutOf, bioOf, pageOf);
      AppendRow(s.userName, s.followers, s.viewerCount, s.language, s.gameName, discordCol, youtubeCol, gmailCol);
      forall k | 0 <= k < |rows| + 1 ensures RowIs(k, (rows + [row])[k]) {
        if k < |rows| {
          assert old(RowIs(k, rows[k]));
        }
      }
    }
  }

  /** The record for streamer `s` with every collaborator consulted. */
  function ResolveFor(s: Streamer, aboutOf: string -> Option<AboutPage>, bioOf: string -> string, pageOf: string -> string): ContactRecord
  {
    Resolve(s, aboutOf(AboutUrl(s.userName)), bioOf, pageOf)
  }

  /** The records of the given streamers, in order. */
  function ResolveEach(streamers: seq<Streamer>, aboutOf: string -> Option<AboutPage>, bioOf: string -> string, pageOf: string -> string): (rows: seq<ContactRecord>)
    ensures |rows| == |streamers|
  {
    if streamers == [] then []
    else
      ResolveEach(streamers[..|streamers| - 1], aboutOf, bioOf, pageOf)
        + [ResolveFor(streamers[|streamers| - 1], aboutOf, bioOf, pageOf)]
  }

  /** Row `k` of the records is the record of streamer `k`. */
  lemma {:induction false} ResolveEachRow(streamers: seq<Streamer>, aboutOf: string -> Option<AboutPage>, bioOf: string -> string, pageOf: string -> string, k: nat)
    requires k < |streamers|
    ensures ResolveEach(streamers, aboutOf, bioOf, pageOf)[k] == ResolveFor(streamers[k], aboutOf, bioOf, pageOf)
  {
    if k < |streamers| - 1 {
      ResolveEachRow(streamers[..|streamers| - 1], aboutOf, bioOf, pageOf, k);
    }
  }

  /** The loop of main.py:40-96: one row per streamer, in order. */
  method ResolveAll(streamers: seq<Streamer>, aboutOf: string -> Option<AboutPage>, bioOf: string -> string, pageOf: string -> string)
    returns (sheet: ContactSheet)
    ensures fresh(sheet) && sheet.Valid() && |sheet.username| == |streamers|
    ensures forall k | 0 <= k < |streamers| :: sheet.RowIs(k, ResolveFor(streamers[k], aboutOf, bioOf, pageOf))
  {
    ghost var rows: seq<ContactRecord> := [];
    sheet := new ContactSheet();
    for i := 0 to |streamers|
      invariant sheet.Holds(rows)
      invariant rows == ResolveEach(streamers[..i], aboutOf, bioOf, pageOf)
    {
      ghost var row := sheet.AddStreamer(streamers[i], aboutOf, bioOf, pageOf, rows);
      assert streamers[..i + 1][..i] == streamers[..i];
      rows := rows + [row];
    }
    assert streamers[..|streamers|] == streamers;
    forall k | 0 <= k < |streamers| ensures sheet.RowIs(k, ResolveFor(streamers[k], aboutOf, bioOf, pageOf)) {
      ResolveEachRow(streamers, aboutOf, bioOf, pageOf, k);
    }
  }

  /** main.py:13-96: filter the live streams, then resolve each kept
      streamer; the sheet has exactly one row per kept streamer. */
  method BuildSheet(streams: seq<LiveStream>, followerOf: string -> Option<int>, minimum: int,
                    aboutOf: string -> Option<AboutPage>, bioOf: string -> string, pageOf: string -> string)
    returns (sheet: ContactSheet)
    ensures fresh(sheet) && sheet.Valid()
    ensures |sheet.username| == |Kept(streams, followerOf, minimum)|
    ensures forall k | 0 <= k < |sheet.username| ::
      sheet.RowIs(k, ResolveFor(Kept(streams, followerOf, minimum)[k], aboutOf, bioOf, pageOf))
  {
    var streamers := CollectStreamers(streams, followerOf, minimum);
    sheet := ResolveAll(streamers, aboutOf, bioOf, pageOf);
  }
}
