/** The return-URL rules shared by the login and logout pages: the
    same-origin test on a query `returnUrl`, the origin stripping that
    follows it, and what it takes for the stripped URL to stay on the
    origin. */
module ReturnUrls {
  import opened Common
  import opened Strings

  /** The error both pages throw for a refused query URL. */
  const InvalidReturnUrl := "Invalid return url. The return url needs to have the same origin as the current page."

  /** The test both pages apply: `fromQuery.startsWith(origin + "/")`. */
  predicate PassesOriginCheck(origin: string, fromQuery: string)
  {
    StartsWith(fromQuery, origin + "/")
  }

  /** ASCII tab, line feed and carriage return: the characters the basic URL
      parser of the WHATWG URL Standard removes from its input wherever they
      occur. */
  predicate IsTabOrNewline(c: char)
  {
    c == '\t' || c == '\n' || c == '\r'
  }

  /** The input the URL parser actually reads: `url` with every tab and
      newline removed, the other characters kept in order. */
  function RemoveTabsAndNewlines(url: string): (r: string)
    ensures |r| <= |url|
  {
    if url == [] then []
    else if IsTabOrNewline(url[0]) then RemoveTabsAndNewlines(url[1..])
    else [url[0]] + RemoveTabsAndNewlines(url[1..])
  }

  /** Every other character keeps its count, and no tab or newline is
      left. */
  lemma {:induction false} RemoveTabsAndNewlinesCount(url: string, c: char)
    ensures multiset(RemoveTabsAndNewlines(url))[c] == if IsTabOrNewline(c) then 0 else multiset(url)[c]
    decreases |url|
  {
    if url != [] {
      RemoveTabsAndNewlinesCount(url[1..], c);
      assert url == [url[0]] + url[1..];
    }
  }

  /** A URL without tabs or newlines is read as it is. */
  lemma {:induction false} RemoveNothing(url: string)
    requires forall i :: 0 <= i < |url| ==> !IsTabOrNewline(url[i])
    ensures RemoveTabsAndNewlines(url) == url
    decreases |url|
  {
    if url != [] {
      RemoveNothing(url[1..]);
      assert url == [url[0]] + url[1..];
    }
  }

  /** Removing the tabs and newlines keeps the order of the other
      characters: it commutes with concatenation. */
  lemma {:induction false} RemoveTabsAndNewlinesAppend(first: string, rest: string)
    ensures RemoveTabsAndNewlines(first + rest) == RemoveTabsAndNewlines(first) + RemoveTabsAndNewlines(rest)
    decreases |first|
  {
    if first != [] {
      RemoveTabsAndNewlinesAppend(first[1..], rest);
      assert (first + rest)[1..] == first[1..] + rest;
    } else {
      assert first + rest == rest;
    }
  }

  /** A reference that, once its tabs and newlines are removed, is
      path-absolute ("/" not followed by "/" or "\"): resolved against an
      http or https page it stays on that page's origin. The parser reads
      "//host" and "/\host" as a reference to another host. */
  predicate OnOrigin(url: string)
  {
    var read := RemoveTabsAndNewlines(url);
    |read| >= 1 && read[0] == '/' && (|read| == 1 || (read[1] != '/' && read[1] != '\\'))
  }

  /** The test the origin test evidently means: the origin, then a path-absolute
      reference. */
  predicate PassesStrictOriginCheck(origin: string, fromQuery: string)
  {
    PassesOriginCheck(origin, fromQuery) && OnOrigin(fromQuery[|origin|..])
  }

  /** `fromQuery.replace(origin, "")` on a URL that passed the origin test removes
      the leading origin and leaves a non-empty path starting with "/". */
  lemma StripOrigin(origin: string, fromQuery: string)
    ensures PassesOriginCheck(origin, fromQuery) ==>
      && ReplaceFirst(fromQuery, origin, "") == fromQuery[|origin|..]
      && |fromQuery[|origin|..]| >= 1 && fromQuery[|origin|..][0] == '/'
  {
    if PassesOriginCheck(origin, fromQuery) {
      assert fromQuery[..|origin|] == (origin + "/")[..|origin|] == origin;
      ReplacePrefix(fromQuery, origin);
      assert fromQuery[|origin|] == (origin + "/")[|origin|] == '/';
    }
  }

  /** The stricter test passes exactly the URLs whose stripped form stays on
      the origin. */
  lemma StrictCheckMeansOnOrigin(origin: string, fromQuery: string)
    ensures PassesStrictOriginCheck(origin, fromQuery) <==>
      PassesOriginCheck(origin, fromQuery) && OnOrigin(ReplaceFirst(fromQuery, origin, ""))
  {
    StripOrigin(origin, fromQuery);
  }

  /** A reference starting "//" with no tab or newline in it leaves the
      origin. */
  lemma SlashSlashLeavesOrigin(url: string)
    requires |url| >= 2 && url[0] == '/' && url[1] == '/'
    requires forall i :: 0 <= i < |url| ==> !IsTabOrNewline(url[i])
    ensures !OnOrigin(url)
  {
    RemoveNothing(url);
  }

  /** "//evil.example" is a reference to another host. */
  lemma EvilHostLeavesOrigin()
    ensures !OnOrigin("//evil.example")
  {
    SlashSlashLeavesOrigin("//evil.example");
  }

  /** A URL that passes the origin test and leaves the origin once stripped: the
      origin followed by "//evil.example". */
  lemma OriginCheckLetsOtherHostThrough()
    ensures PassesOriginCheck("https://app.example", "https://app.example//evil.example")
    ensures ReplaceFirst("https://app.example//evil.example", "https://app.example", "") == "//evil.example"
    ensures !OnOrigin("//evil.example")
  {
    var origin := "https://app.example";
    var query := "https://app.example//evil.example";
    assert query == origin + "/" + "/evil.example";
    assert query[..|origin + "/"|] == origin + "/";
    StripOrigin(origin, query);
    assert query[|origin|..] == "//evil.example";
    EvilHostLeavesOrigin();
  }

  /** The parser drops a tab after a leading "/": what it reads starts
      with "//" when `rest` does with "/", whatever follows. */
  lemma {:induction false} TabAfterSlashIsDropped(rest: string)
    requires forall i :: 0 <= i < |rest| ==> !IsTabOrNewline(rest[i])
    ensures RemoveTabsAndNewlines("/\t" + rest) == "/" + rest
  {
    var url := "/\t" + rest;
    RemoveNothing(rest);
    assert url[1..] == "\t" + rest;
    assert url[1..][1..] == rest;
  }

  /** The parser reads "/\t/evil.example" as "//evil.example", a reference
      to another host. */
  lemma TabIsDropped()
    ensures RemoveTabsAndNewlines("/\t/evil.example") == "//evil.example"
    ensures !OnOrigin("/\t/evil.example")
  {
    var url := "/\t/evil.example";
    assert url[2..] == "/evil.example";
    assert url == "/\t" + url[2..];
    TabAfterSlashIsDropped(url[2..]);
    assert "/" + url[2..] == "//evil.example";
    EvilHostLeavesOrigin();
  }

  /** A tab between the two slashes does not get a URL past the stricter test
      although it passes the origin test as written. */
  lemma TabDoesNotSlipThrough()
    ensures PassesOriginCheck("https://app.example", "https://app.example/\t/evil.example")
    ensures !PassesStrictOriginCheck("https://app.example", "https://app.example/\t/evil.example")
  {
    var origin := "https://app.example";
    var query := "https://app.example/\t/evil.example";
    assert query == origin + "/" + "\t/evil.example";
    assert query[..|origin + "/"|] == origin + "/";
    assert query[|origin|..] == "/\t/evil.example";
    TabIsDropped();
  }
}
