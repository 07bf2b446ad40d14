/**
 * The page-side matcher of content.js: whether one watchlist address applies
 * to a URL, the two filters built on it, and the tracker that re-runs the page
 * scan when a single-page application changes `location.href`.
 *
 * Hostname extraction (`new URL(url).hostname`) is a parameter `parse`: it
 * yields `Some(hostname)` when the URL parses and `None` when the constructor
 * throws.
 */
module Content {
  import opened Wrappers
  import opened Strings
  import opened Watchlist
  import Glob

  type HostParser = string -> Option<string>

  /** The local `hostname` of urlMatchesPattern: the URL itself unless it starts with "http" and parses. */
  function Hostname(url: string, parse: HostParser): (r: string)
    ensures r == url || (StartsWith(url, "http") && parse(url) == Some(r))
    ensures StartsWith(url, "http") && parse(url).Some? ==> r == parse(url).value
  {
    if StartsWith(url, "http") then
      match parse(url)
      case Some(host) => host
      case None => url
    else url
  }

  /** A wildcard pattern compiles to the regular-expression fragment of module Glob. */
  predicate Compilable(pattern: string)
  {
    '*' in pattern ==> Glob.GlobSafe(pattern)
  }

  predicate AllCompilable(data: seq<WatchEntry>)
  {
    forall e :: e in data ==> Compilable(e.address)
  }

  /**
   * urlMatchesPattern: a pattern with `*` is tested, as a regular expression,
   * against the full URL only; any other pattern matches when it occurs,
   * ignoring case, in the hostname or in the full URL.
   */
  function UrlMatchesPattern(url: string, pattern: string, parse: HostParser): (r: bool)
    requires Compilable(pattern)
    ensures '*' in pattern ==>
              (r <==> exists i, j :: 0 <= i <= j <= |url| && Glob.Fits(pattern, url[i..j]))
    ensures '*' !in pattern ==>
              (r <==> IsSubstring(Lower(pattern), Lower(Hostname(url, parse)))
                      || IsSubstring(Lower(pattern), Lower(url)))
  {
    var hostname := Hostname(url, parse);
    if '*' in pattern then
      Glob.TestMeaning(pattern, url);
      Glob.Test(pattern, url)
    else
      ContainsIsSubstring(Lower(hostname), Lower(pattern));
      ContainsIsSubstring(Lower(url), Lower(pattern));
      Contains(Lower(hostname), Lower(pattern)) || Contains(Lower(url), Lower(pattern))
  }

  /** Without a scheme prefix the hostname is the URL, so only the URL is searched. */
  lemma PlainPatternOnBareHost(url: string, pattern: string, parse: HostParser)
    requires '*' !in pattern && !StartsWith(url, "http")
    ensures UrlMatchesPattern(url, pattern, parse) <==> IsSubstring(Lower(pattern), Lower(url))
  {
  }

  /** A URL the parser rejects is treated as its own hostname; a verdict is still returned. */
  lemma ParseFailureFallsBack(url: string, pattern: string, parse: HostParser)
    requires '*' !in pattern && parse(url).None?
    ensures Hostname(url, parse) == url
    ensures UrlMatchesPattern(url, pattern, parse) <==> IsSubstring(Lower(pattern), Lower(url))
  {
  }

  /** A wildcard pattern never looks at the hostname: any two parsers agree. */
  lemma WildcardIgnoresHostname(url: string, pattern: string, parse: HostParser, other: HostParser)
    requires '*' in pattern && Glob.GlobSafe(pattern)
    ensures UrlMatchesPattern(url, pattern, parse) == UrlMatchesPattern(url, pattern, other)
  {
  }

  /** Why the page scan skips empty addresses: `includes('')` holds of every string. */
  lemma EmptyPatternMatchesEverything(url: string, parse: HostParser)
    ensures UrlMatchesPattern(url, "", parse)
  {
    assert Lower(url)[0..] == Lower(url);
    assert StartsWith(Lower(url)[0..], Lower(""));
  }

  /**
   * countMatchingEntries filters with urlMatchesPattern before taking the
   * length: the matching entries, in order, every copy of each kept.
   */
  function EntriesMatching(url: string, data: seq<WatchEntry>, parse: HostParser): (r: seq<WatchEntry>)
    requires AllCompilable(data)
    ensures IsSubsequence(r, data)
    ensures forall e :: e in r <==> e in data && UrlMatchesPattern(url, e.address, parse)
    ensures |r| == |data| <==> forall k :: 0 <= k < |data| ==> UrlMatchesPattern(url, data[k].address, parse)
    decreases |data|
  {
    if data == [] then []
    else
      var rest := EntriesMatching(url, data[1..], parse);
      assert forall e :: e in data <==> e == data[0] || e in data[1..];
      SubsequenceNoLonger(rest, data[1..]);
      if UrlMatchesPattern(url, data[0].address, parse) then [data[0]] + rest else rest
  }

  /** Every copy of a matching entry is kept; no copy of any other entry is. */
  lemma {:induction false} EntriesMatchingCopies(url: string, data: seq<WatchEntry>, parse: HostParser, e: WatchEntry)
    requires AllCompilable(data) && e in data
    ensures multiset(EntriesMatching(url, data, parse))[e]
            == if UrlMatchesPattern(url, e.address, parse) then multiset(data)[e] else 0
    decreases |data|
  {
    var tail := data[1..];
    assert data == [data[0]] + tail;
    var rest := EntriesMatching(url, tail, parse);
    if e in tail {
      EntriesMatchingCopies(url, tail, parse, e);
    } else {
      assert multiset(rest)[e] == 0 && multiset(tail)[e] == 0;
    }
  }

  /** urlMatchesPattern against one URL, as a test on entries. */
  function MatchesUrl(url: string, parse: HostParser): WatchEntry -> bool
  {
    (e: WatchEntry) => Compilable(e.address) && UrlMatchesPattern(url, e.address, parse)
  }

  lemma {:induction false} EntriesMatchingIsFilter(url: string, data: seq<WatchEntry>, parse: HostParser)
    requires AllCompilable(data)
    ensures EntriesMatching(url, data, parse) == Filter(data, MatchesUrl(url, parse))
    decreases |data|
  {
    if data != [] {
      EntriesMatchingIsFilter(url, data[1..], parse);
    }
  }

  /** The positions MatchesUrl keeps are the positions whose address matches. */
  lemma MatchingPositions(url: string, data: seq<WatchEntry>, parse: HostParser)
    requires AllCompilable(data)
    ensures Positions(data, MatchesUrl(url, parse))
            == (set k | 0 <= k < |data| && UrlMatchesPattern(url, data[k].address, parse))
  {
    var kept := Positions(data, MatchesUrl(url, parse));
    var matching := set k | 0 <= k < |data| && UrlMatchesPattern(url, data[k].address, parse);
    forall k | k in kept ensures k in matching {
      assert data[k] in data;
    }
    forall k | k in matching ensures k in kept {
      assert data[k] in data;
    }
  }

  /** The filter keeps one entry per matching position. */
  lemma MatchingCount(url: string, data: seq<WatchEntry>, parse: HostParser)
    requires AllCompilable(data)
    ensures |EntriesMatching(url, data, parse)| == |set k | 0 <= k < |data| && UrlMatchesPattern(url, data[k].address, parse)|
  {
    EntriesMatchingIsFilter(url, data, parse);
    FilterCount(data, MatchesUrl(url, parse));
    MatchingPositions(url, data, parse);
  }

  /** countMatchingEntries: the number of entries whose address matches the URL. */
  function CountMatchingEntries(url: string, data: seq<WatchEntry>, parse: HostParser): (n: nat)
    requires AllCompilable(data)
    ensures n == |set k | 0 <= k < |data| && UrlMatchesPattern(url, data[k].address, parse)|
    ensures n <= |data|
    ensures n == 0 <==> forall e :: e in data ==> !UrlMatchesPattern(url, e.address, parse)
    ensures n == |data| <==> forall k :: 0 <= k < |data| ==> UrlMatchesPattern(url, data[k].address, parse)
  {
    var r := EntriesMatching(url, data, parse);
    SubsequenceNoLonger(r, data);
    MatchingCount(url, data, parse);
    assert r != [] ==> r[0] in r;
    |r|
  }

  /** The stored entries flagged on this page: a non-empty address matching the URL or the hostname. */
  predicate Flags(e: WatchEntry, currentUrl: string, hostname: string, parse: HostParser)
    requires Compilable(e.address)
  {
    e.address != "" && (UrlMatchesPattern(currentUrl, e.address, parse) || UrlMatchesPattern(hostname, e.address, parse))
  }

  /** The filter of checkCurrentPage: the flagged entries, in stored order, every copy of each kept. */
  function PageMatches(currentUrl: string, hostname: string, data: seq<WatchEntry>, parse: HostParser): (r: seq<WatchEntry>)
    requires AllCompilable(data)
    ensures IsSubsequence(r, data)
    ensures forall e :: e in r <==> e in data && Flags(e, currentUrl, hostname, parse)
    decreases |data|
  {
    if data == [] then []
    else
      var rest := PageMatches(currentUrl, hostname, data[1..], parse);
      assert forall e :: e in data <==> e == data[0] || e in data[1..];
      if Flags(data[0], currentUrl, hostname, parse) then [data[0]] + rest else rest
  }

  /** Every copy of a flagged entry is kept; no copy of any other entry is. */
  lemma {:induction false} PageMatchesCopies(currentUrl: string, hostname: string, data: seq<WatchEntry>,
                                             parse: HostParser, e: WatchEntry)
    requires AllCompilable(data) && e in data
    ensures multiset(PageMatches(currentUrl, hostname, data, parse))[e]
            == if Flags(e, currentUrl, hostname, parse) then multiset(data)[e] else 0
    decreases |data|
  {
    var tail := data[1..];
    assert data == [data[0]] + tail;
    var rest := PageMatches(currentUrl, hostname, tail, parse);
    if e in tail {
      PageMatchesCopies(currentUrl, hostname, tail, parse, e);
    } else {
      assert multiset(rest)[e] == 0 && multiset(tail)[e] == 0;
    }
  }

  /** checkCurrentPage: no stored watchlist shows nothing; otherwise the flagged entries, in order and with their copies. */
  function CheckCurrentPage(currentUrl: string, hostname: string, stored: Option<seq<WatchEntry>>,
                            parse: HostParser): (r: seq<WatchEntry>)
    requires stored.Some? ==> AllCompilable(stored.value)
    ensures stored.None? ==> r == []
    ensures stored.Some? ==>
              IsSubsequence(r, stored.value)
              && forall e :: e in stored.value ==>
                   multiset(r)[e] == if Flags(e, currentUrl, hostname, parse) then multiset(stored.value)[e] else 0
  {
    match stored
    case None => []
    case Some(data) =>
      forall e | e in data ensures multiset(PageMatches(currentUrl, hostname, data, parse))[e]
                                   == if Flags(e, currentUrl, hostname, parse) then multiset(data)[e] else 0 {
        PageMatchesCopies(currentUrl, hostname, data, parse, e);
      }
      PageMatches(currentUrl, hostname, data, parse)
  }

  /** An entry is never flagged through an empty address, whatever the page. */
  lemma EmptyAddressNeverFlagged(currentUrl: string, hostname: string, data: seq<WatchEntry>,
                                 parse: HostParser, e: WatchEntry)
    requires AllCompilable(data) && e.address == ""
    ensures e !in PageMatches(currentUrl, hostname, data, parse)
  {
  }

  /** The module-level `lastUrl` and the MutationObserver callback that reads it. */
  class UrlTracker {
    var lastUrl: string

    /** `let lastUrl = window.location.href` when the script loads. */
    constructor(href: string)
      ensures lastUrl == href
    {
      lastUrl := href;
    }

    /**
     * One observer callback: when `href` differs from `lastUrl`, record it and
     * run checkCurrentPage, whose flagged entries are returned; otherwise do nothing.
     */
    method Observe(href: string, hostname: string, stored: Option<seq<WatchEntry>>, parse: HostParser)
      returns (rescanned: bool, flagged: seq<WatchEntry>)
      requires stored.Some? ==> AllCompilable(stored.value)
      modifies this
      ensures rescanned <==> href != old(lastUrl)
      ensures lastUrl == href
      ensures flagged == if rescanned then CheckCurrentPage(href, hostname, stored, parse) else []
    {
      rescanned := href != lastUrl;
      flagged := [];
      if rescanned {
        lastUrl := href;
        flagged := CheckCurrentPage(href, hostname, stored, parse);
      }
    }
  }

  /** A re-render that leaves `href` as it was triggers no second scan. */
  method RepeatedHrefIsNoOp(tracker: UrlTracker, href: string, hostname: string,
                            stored: Option<seq<WatchEntry>>, parse: HostParser)
    returns (first: bool, second: bool)
    requires stored.Some? ==> AllCompilable(stored.value)
    modifies tracker
    ensures first <==> href != old(tracker.lastUrl)
    ensures !second && tracker.lastUrl == href
  {
    var flagged;
    first, flagged := tracker.Observe(href, hostname, stored, parse);
    second, flagged := tracker.Observe(href, hostname, stored, parse);
  }
}
