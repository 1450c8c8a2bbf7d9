/** `extract_emails` and `scrape_youtube` of functions.py.  The page fetch of
    `scrape_youtube` is abstracted: its input is the sequence of page texts,
    one per channel link, in link-iteration order. */
module Functions {
  import opened Text
  import opened Collections
  import opened EmailScanner

  /** The lower-cased match ends in one of the image suffixes of
      functions.py:105. */
  predicate IsImageName(s: string)
  {
    EndsWith(s, ".jpg") || EndsWith(s, ".jpeg") || EndsWith(s, ".png") || EndsWith(s, ".gif")
  }

  /** The list comprehension of functions.py:102-106: lower-case every raw
      match and drop those that end in an image suffix; order and duplicates
      are kept. */
  function Normalize(raw: seq<string>): (r: seq<string>)
    ensures |r| <= |raw|
    ensures forall x | x in r :: NoUpper(x) && !IsImageName(x)
    ensures forall x :: x in r <==> (exists m | m in raw :: Lower(m) == x) && !IsImageName(x)
  {
    if raw == [] then []
    else
      var m := Lower(raw[0]);
      LowerIsLowercase(raw[0]);
      assert raw == [raw[0]] + raw[1..];
      (if IsImageName(m) then [] else [m]) + Normalize(raw[1..])
  }

  /** The filter keeps the order of the matches: normalising a concatenation
      normalises each part in turn. */
  lemma {:induction false} NormalizeAppend(a: seq<string>, b: seq<string>)
    ensures Normalize(a + b) == Normalize(a) + Normalize(b)
  {
    if a != [] {
      assert (a + b)[0] == a[0];
      assert (a + b)[1..] == a[1..] + b;
      NormalizeAppend(a[1..], b);
    } else {
      assert a + b == b;
    }
  }

  /** Running the filter again on its own output changes nothing. */
  lemma {:induction false} NormalizeIdempotent(raw: seq<string>)
    ensures Normalize(Normalize(raw)) == Normalize(raw)
  {
    if raw != [] {
      var m := Lower(raw[0]);
      LowerIsLowercase(raw[0]);
      var head := if IsImageName(m) then [] else [m];
      assert Normalize(raw) == head + Normalize(raw[1..]);
      NormalizeAppend(head, Normalize(raw[1..]));
      NormalizeIdempotent(raw[1..]);
      if !IsImageName(m) {
        assert [m][1..] == [];
        assert Normalize(head) == [Lower(m)] + Normalize([]);
      }
    }
  }

  /** Lower-casing keeps every character in its class, so a match stays a match. */
  lemma LowerKeepsPattern(m: string)
    requires MatchesEmailPattern(m)
    ensures MatchesEmailPattern(Lower(m))
  {
    var at, dot :| 0 <= at < |m| && 0 <= dot < |m| && Split(m, at, dot);
    var l := Lower(m);
    assert l[at] == '@' && l[dot] == '.';
    assert Split(l, at, dot);
  }

  /** `extract_emails(text)` (functions.py:91-106): the matches of the
      pattern, lower-cased, image names dropped, in match order. */
  function ExtractEmails(text: string): (r: seq<string>)
    ensures forall x | x in r :: NoUpper(x) && !IsImageName(x) && MatchesEmailPattern(x)
  {
    var raw := FindAll(text);
    assert forall x | x in Normalize(raw) :: MatchesEmailPattern(x) by {
      forall x | x in Normalize(raw) ensures MatchesEmailPattern(x) {
        var m :| m in raw && Lower(m) == x;
        LowerKeepsPattern(m);
      }
    }
    Normalize(raw)
  }

  /** An address is extracted iff it is the lower-cased form of a match and
      not an image name. */
  lemma ExtractEmailsMembers(text: string, x: string)
    ensures x in ExtractEmails(text) <==> (exists m | m in FindAll(text) :: Lower(m) == x) && !IsImageName(x)
    ensures |ExtractEmails(text)| <= |FindAll(text)|
  {
  }

  /** A scan that reports a match has passed over an `@`. */
  lemma ScanFindsAt(text: string, p: nat)
    requires p <= |text|
    ensures Scan(text, p) != [] ==> exists i | 0 <= i < |text| :: text[i] == '@'
  {
    var spans := Scan(text, p);
    if spans != [] {
      ScanReported(text, p, 0);
      MatchEndSound(text, spans[0].0);
      MatchHasAt(text, spans[0].0, spans[0].1);
    }
  }

  /** Text with no `@` holds no email. */
  lemma NoAtSignNoEmails(text: string)
    requires forall i | 0 <= i < |text| :: text[i] != '@'
    ensures ExtractEmails(text) == []
  {
    ScanFindsAt(text, 0);
  }

  /** The emails `extract_emails` finds on each page, in link order. */
  function PerPage(pages: seq<string>): (found: seq<seq<string>>)
    ensures |found| == |pages|
  {
    seq(|pages|, i requires 0 <= i < |pages| => ExtractEmails(pages[i]))
  }

  /** What `mails` holds after the loop of functions.py:218-220 has visited
      pages whose extracted emails are `found`: each page's
      `set(extract_emails(...))`, in first-occurrence order, one page after
      the other. */
  function MergePages(found: seq<seq<string>>): seq<string>
  {
    if found == [] then []
    else MergePages(found[..|found| - 1]) + Dedup(found[|found| - 1])
  }

  /** The number of pages whose extracted emails include `x`. */
  function PagesWith(found: seq<seq<string>>, x: string): nat
  {
    if found == [] then 0
    else PagesWith(found[..|found| - 1], x) + (if x in found[|found| - 1] then 1 else 0)
  }

  /** Each page contributes an address at most once, and every page that
      mentions it contributes it once. */
  lemma {:induction false} MergePagesCount(found: seq<seq<string>>, x: string)
    ensures multiset(MergePages(found))[x] == PagesWith(found, x)
  {
    if found != [] {
      MergePagesCount(found[..|found| - 1], x);
      NoDupsCount(Dedup(found[|found| - 1]), x);
    }
  }

  /** An address is in the result iff some page yields it. */
  lemma {:induction false} MergePagesMembers(found: seq<seq<string>>, x: string)
    ensures x in MergePages(found) <==> exists f | f in found :: x in f
  {
    if found != [] {
      var init := found[..|found| - 1];
      MergePagesMembers(init, x);
      assert found == init + [found[|found| - 1]];
    }
  }

  /** An address is in the merged result iff the page at some index yields it. */
  lemma PerPageMembers(pages: seq<string>, x: string)
    ensures x in MergePages(PerPage(pages)) <==> exists i | 0 <= i < |pages| :: x in ExtractEmails(pages[i])
  {
    var found := PerPage(pages);
    MergePagesMembers(found, x);
    assert forall i | 0 <= i < |pages| :: found[i] == ExtractEmails(pages[i]);
    if x in MergePages(found) {
      var f :| f in found && x in f;
      var i :| 0 <= i < |found| && found[i] == f;
    }
    forall i | 0 <= i < |pages| && x in found[i] ensures x in MergePages(found) {
      assert found[i] in found;
    }
  }

  /** `scrape_youtube` (functions.py:211-221) over the fetched page texts. */
  method ScrapeYoutube(pages: seq<string>) returns (mails: seq<string>)
    ensures mails == MergePages(PerPage(pages))
    ensures pages == [] ==> mails == []
    ensures forall x | x in mails :: NoUpper(x) && !IsImageName(x) && MatchesEmailPattern(x)
    ensures forall x :: multiset(mails)[x] == PagesWith(PerPage(pages), x)
    ensures forall x :: x in mails <==> exists i | 0 <= i < |pages| :: x in ExtractEmails(pages[i])
  {
    ghost var found := PerPage(pages);
    mails := [];
    for i := 0 to |pages|
      invariant mails == MergePages(found[..i])
    {
      assert found[..i + 1][..i] == found[..i];
      assert found[i] == ExtractEmails(pages[i]);
      mails := mails + Dedup(ExtractEmails(pages[i]));
    }
    assert found[..|pages|] == found;
    forall x
      ensures multiset(mails)[x] == PagesWith(found, x)
      ensures x in mails <==> exists i | 0 <= i < |pages| :: x in ExtractEmails(pages[i])
    {
      MergePagesCount(found, x);
      PerPageMembers(pages, x);
    }
  }
}
