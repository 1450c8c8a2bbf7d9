# Twitch-Scraper contact pipeline in Dafny

This project models the core of Twitch-Scraper. The scraper takes the live streams of one game and keeps the streamers whose follower count is above a minimum. For each kept streamer it collects a Discord link, YouTube channel links and email addresses from the Twitch about page, the bio of the first Twitter link and the YouTube channel pages. The result is eight parallel output columns, one row per kept streamer.

Modules:

- `Wrappers`: `Option`.
- `Text`: ASCII character classes, `Lower`, substring and suffix tests, and Python's `str.join`.
- `Collections`: Python sets as duplicate-free sequences in first-insertion order (`Dedup`, `Union`).
- `EmailScanner`: the regular expression `\b[\w.+-]+@[\w.-]+\.[A-Za-z]{2,}\b` and `re.findall`.
  - The regex engine is characterised, not replicated. `MatchEnd` gives the end of the match at a position. It is proved to be a match (`MatchEndSound`), to exist whenever any match exists (`MatchEndComplete`), and to be the longest one (`MatchEndLongest`).
  - `Scan` is the leftmost, non-overlapping search. It is proved to report only such matches (`ScanReported`) and to skip no match start (`ScanMissesNothing`).
- `Functions`: `extract_emails` (`ExtractEmails`) and `scrape_youtube` (the loop `ScrapeYoutube`, proved against `MergePages`).
- `Pipeline`: the two loops of `main.py`.
  - The follower filter is the loop `CollectStreamers`, proved against `Kept`.
  - The per-streamer resolution is the class `ContactSheet`, whose eight `seq` fields are the module-level lists of `main.py`. `AddStreamer` appends one row and `ResolveAll` runs the loop.
  - One iteration's contact columns are computed imperatively by `SortLinks`, `CollectMails` and `ResolveContacts`. Each is proved equal to the pure specification `Resolve` (`DiscordField`, `YoutubeField`, `GmailField`, `MailsFound`). The properties of the columns are lemmas about `Resolve`.

The scraping collaborators are function parameters:
- `followerOf`: the follower count of a user id, `None` when `get_follower_count` returns `None`, which happens when the user is not found or the request does not return status 200 (functions.py:133-146);
- `aboutOf`: the about-page result for a URL, `None` when `scrape_twitch_about` catches a failing subprocess and returns `None` (functions.py:205-207);
- `bioOf`: the Twitter bio for a profile link;
- `pageOf`: the text of a channel page.

Where the model departs from the program or its comments:
- The comment at functions.py:96 lists a percent sign among the local-part characters, but the pattern at functions.py:98 has none. The model follows the pattern.
- `extract_emails` returns a list that keeps duplicates and match order (functions.py:102-106), and the model returns the same, not a set.
- The Twitter test at main.py:74 raises TypeError as written. The model reads it as `"twitter"` in the lower-cased link, the same form as the tests at main.py:70 and 72. See "## Findings".
- When `get_follower_count` returns `None`, the comparison `follower > minimum_follower` at main.py:31 raises TypeError and the run stops. The model does not stop: that stream simply fails the filter (`Passes`).
- When `scrape_twitch_about` returns `None`, `response.get(...)` at main.py:56 raises AttributeError and the run stops. The model does not stop: the streamer gets a row as if the about page had no links and no emails (`AboutOrEmpty`).

## Model

| member | source | states |
|---|---|---|
| Text.Lower | functions.py:103 | definition: `str.lower` on ASCII, character by character |
| Text.Join | main.py:80 | definition: Python's `sep.join(values)`, used at main.py:63, 80 and 96 |
| Text.LowerIsLowercase | functions.py:103 | `str.lower` leaves no capital letter, keeps the length, and lower-casing again changes nothing |
| Collections.Dedup | functions.py:220 | `set(xs)`: no duplicates, exactly the members of `xs`, never longer |
| Collections.Union | main.py:58 | `s.update(xs)`: no duplicates, members are those of `s` or `xs` |
| Collections.NoDupsCount | main.py:96 | a set holds each of its elements exactly once |
| Collections.DedupOfNoDups | main.py:96 | `set(...)` of a set changes nothing |
| EmailScanner.MatchesEmailPattern | functions.py:98 | definition: a string matches `[\w.+-]+@[\w.-]+\.[A-Za-z]{2,}` as a whole |
| EmailScanner.Boundary | functions.py:98 | definition: `\b` holds between a word and a non-word character, the text's ends counting as non-word |
| EmailScanner.LastDot | functions.py:98 | the domain backtracking: the result is the last dot in range followed by 2+ letters and a non-word character, or none exists |
| EmailScanner.MatchEnd | functions.py:98-101 | the end of the engine's match at a position lies after the position and inside the text; see `MatchEndSound`, `MatchEndComplete`, `MatchEndLongest` |
| EmailScanner.RunEnd | functions.py:98 | a greedy `+` run: every character inside is in the class, and the one after it is not |
| EmailScanner.RunEndUnique | functions.py:98 | a run that is in the class and stops at a non-class character is the maximal run |
| EmailScanner.CandidateMatches | functions.py:98 | a local run, `@`, and a domain dot followed by 2+ letters and a non-word character form a match |
| EmailScanner.MatchIsCandidate | functions.py:98 | every match has that shape, with the forced maximal local run |
| EmailScanner.MatchEndSound | functions.py:98 | what the regex reports at a position matches the whole pattern with both word boundaries |
| EmailScanner.MatchEndComplete | functions.py:98 | when nothing is reported at a position, no match starts there |
| EmailScanner.MatchEndLongest | functions.py:98 | every match at a position ends no further right than the reported one (greedy with backtracking) |
| EmailScanner.Scan | functions.py:101 | `re.findall` spans lie in the text, in increasing order, without overlap |
| EmailScanner.ScanReported | functions.py:101 | every reported span is the match the regex reports at its start |
| EmailScanner.ScanMissesNothing | functions.py:101 | no match starts at a position that no reported span covers |
| EmailScanner.FindAll | functions.py:98-101 | every string `re.findall` returns matches the pattern |
| EmailScanner.MatchHasAt | functions.py:98 | every match contains `@` |
| Functions.IsImageName | functions.py:105 | definition: the lower-cased match ends in `.jpg`, `.jpeg`, `.png` or `.gif` |
| Functions.Normalize | functions.py:102-106 | the comprehension: lower-case, no image suffix, exactly the lower-cased non-image matches, never longer |
| Functions.NormalizeAppend | functions.py:102-106 | the filter keeps match order |
| Functions.NormalizeIdempotent | functions.py:102-106 | running the filter again changes nothing |
| Functions.LowerKeepsPattern | functions.py:103 | lower-casing a match keeps it a match |
| Functions.ExtractEmails | functions.py:91-106 | every extracted address is lower-case, not an image name, and matches the pattern |
| Functions.ExtractEmailsMembers | functions.py:91-106 | an address is extracted iff it is the lower-cased form of a match and not an image name; at most one address per match |
| Functions.NoAtSignNoEmails | functions.py:91-106 | text without `@` yields no address |
| Functions.MergePages | functions.py:217-221 | definition: each page's distinct addresses appended page after page; see `MergePagesCount`, `MergePagesMembers` |
| Functions.MergePagesCount | functions.py:218-220 | each page contributes an address at most once |
| Functions.MergePagesMembers | functions.py:218-220 | an address is in the result iff some page yields it |
| Functions.PerPageMembers | functions.py:218-220 | an address is in the merged result iff the page at some index yields it |
| Functions.ScrapeYoutube | functions.py:211-221 | the loop returns, page by page, each page's distinct addresses; membership iff some page yields it; count equals the number of pages that yield it |
| Pipeline.Passes | main.py:31 | definition: the count is known and strictly above the minimum |
| Pipeline.Kept | main.py:26-35 | kept streamers are at most the streams, each with followers above the minimum |
| Pipeline.KeptAppend | main.py:26-35 | the filter keeps input order |
| Pipeline.KeptMembers | main.py:30-35 | a record is kept iff its stream's count is known and above the minimum, and it carries that count |
| Pipeline.ThresholdIsStrict | main.py:31 | against the minimum 50000 of main.py:9, 50000 followers is dropped and 50001 kept |
| Pipeline.CollectStreamers | main.py:26-35 | the loop computes `Kept` |
| Pipeline.Mentions | main.py:70-74 | definition: the lower-cased link contains the token |
| Pipeline.Bucket | main.py:69-75 | definition: the links that mention the token, in order, repeats kept; see `BucketMembers`, `BucketFirst`, `BucketAppend` |
| Pipeline.BucketAppend | main.py:69-75 | the link loop keeps link order: the bucket of a concatenation is the concatenation of the buckets |
| Pipeline.YoutubeLinks | main.py:70-71 | definition: the set `yt_links`, the de-duplicated YouTube bucket |
| Pipeline.BucketMembers | main.py:69-75 | a link is in a bucket iff it is a link and contains the token case-insensitively |
| Pipeline.BucketFirst | main.py:84 | the head of a bucket is the first link containing the token |
| Pipeline.DiscordField | main.py:81-84 | definition of the Discord column; see `DiscordColumn` |
| Pipeline.YoutubeField | main.py:77-80 | definition of the YouTube column; see `YoutubeColumn` |
| Pipeline.MailsFound | main.py:58-92 | definition of `mails_found` once the page has links; see `MailsFoundMembers` |
| Pipeline.GmailField | main.py:59-96 | definition of the email column in both branches; see `NoSocials`, `EmailColumn` |
| Pipeline.Resolve | main.py:50-96 | definition of one iteration's row; every column lemma is stated about it |
| Pipeline.NoSocials | main.py:59-67 | with no links: both sentinels, the about-page emails once each joined by ", " or "Couldn't find a valid mail", and no bio or channel page is used |
| Pipeline.YoutubeColumn | main.py:70-80 | YouTube column is the sentinel iff no link mentions "youtube", else each such link once, joined by ", " |
| Pipeline.DiscordColumn | main.py:72-84 | Discord column is the sentinel iff no link mentions "discord", else the first such link |
| Pipeline.BucketsOverlap | main.py:69-75 | the bucket tests are independent: a link can land in more than one |
| Pipeline.ChannelMails | main.py:91-92 | the channel-page addresses are those on the page of some YouTube link |
| Pipeline.MailsFoundMembers | main.py:86-92 | `mails_found`, seeded with the about-page emails (main.py:58), has no duplicates and holds exactly the about-page, first-bio and channel-page addresses |
| Pipeline.EmailColumn | main.py:93-96 | with links: "Couldn't find a valid gmail" iff there is no address from any source; else each address once, joined by "," |
| Pipeline.OnlyFirstBio | main.py:86-90 | only the bio of the first Twitter link affects the row |
| Pipeline.OnlyYoutubePages | main.py:91-92 | only pages of links mentioning "youtube" affect the row |
| Pipeline.PyIn | main.py:74 | definition: Python's `in`, a substring test on a string that raises (`None`) on an int |
| Pipeline.TwitterTestAsWritten | main.py:74 | definition: the test as written, `or` evaluating its left operand first |
| Pipeline.TwitterLinksAsWritten | main.py:69-75 | definition: the Twitter list the loop builds as written, `None` once a test raised |
| Pipeline.LinkLoopRaises | main.py:74 | as written, with the int index of main.py:40 as left operand, the loop raises for every non-empty list of links |
| Pipeline.TwitterLinkRaises | main.py:74 | as written, the link loop raises on a Twitter link that the corrected test keeps |
| Pipeline.TwitterLinksCorrected | main.py:69-75 | with a left operand that is a string without "x", the loop as written builds exactly the corrected Twitter bucket |
| Pipeline.SortLinks | main.py:69-75 | the loop builds the de-duplicated YouTube bucket and the Discord and Twitter buckets in link order |
| Pipeline.CollectMails | main.py:86-92 | the bio and channel steps produce `MailsFound`, which has no duplicates |
| Pipeline.ResolveContacts | main.py:56-96 | the three contact columns appended for one streamer are the renderings of the specified fields; `set(mails_found)` of main.py:96 leaves the set unchanged |
| Pipeline.ContactSheet.AppendRow | main.py:50-54 | each of the eight lists grows by its value; the lists stay parallel |
| Pipeline.ContactSheet.AddStreamer | main.py:40-96 | one iteration appends exactly the rendering of the streamer's record to each list |
| Pipeline.ResolveEachRow | main.py:40-96 | row `k` of the records is the record of streamer `k` |
| Pipeline.ResolveAll | main.py:40-96 | the sheet has one row per streamer, in order, row `k` being streamer `k`'s record |
| Pipeline.BuildSheet | main.py:13-96 | the sheet has one row per kept stream, in order, each that streamer's record |

## Left out

- `get_live_streams`, `get_follower_count`, `scrape_twitch_about`, `scrape_twitter_profile` and `requests.get` (functions.py:38-88, 109-209, 219): network, subprocess and browser I/O. Their results are the parameters `streams`, `followerOf`, `aboutOf`, `bioOf` and `pageOf`.
- An exception raised inside a collaborator stops the source's run, and the model does not capture it. Examples: the `wait_for_selector` timeout at functions.py:54, a `requests.get` error at functions.py:219, and a `json.loads` failure at functions.py:202, which the `except` at functions.py:205 does not catch.
- `is_valid_email` (functions.py:26-36): the pipeline never calls it.
- `time_it` (functions.py:11-24): it only times and logs.
- The `tqdm` progress bars (main.py:26, 40) and `logging` calls (main.py:38-39) are diagnostics only.
- The pandas DataFrame and the CSV file (main.py:98-103) are output formatting only. The model ends with the eight lists.
- The credentials, game id and output file name of main.py:7-11 are configuration. The minimum follower count is a parameter, with the value 50000 of main.py:9 as `MinimumFollower`.
- Python's `\w` and `str.lower` are Unicode-aware. The model uses their ASCII restriction.
- Python iterates a set in an unspecified order. The model iterates `yt_links`, `mails_found` and `set(extract_emails(...))` in first-insertion order. The lemmas state the columns by membership and absence of duplicates, not by order.
- Pipeline.SortLinks: x.com links are not classified as Twitter links. The corrected test drops the `"x"` operand of main.py:74 rather than guess which test on the link it was meant to be.

## Findings

| source | as written | input that shows it | evidently intended | confidence | as-written member | corrected member |
|---|---|---|---|---|---|---|
| main.py:74 | `"x" in i or "twitter" in str(social_links).lower()`, where `i` is the integer index of the enclosing loop; `in` on an int raises TypeError, so the first link of any streamer with links stops the run | about page with the links `["https://twitter.com/z"]` | test the link itself, as lines 70 and 72 do: `"twitter"` in the lower-cased link | high; not executed | Pipeline.TwitterLinkRaises | Pipeline.SortLinks |
