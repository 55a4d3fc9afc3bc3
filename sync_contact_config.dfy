/** The domain allow-list for contact synchronisation: an optional
    environment value split at commas. */
module SyncContactConfig {
  import opened Outcomes
  import opened ContactBean

  /** The one-character delimiter; as a regular expression it matches only itself. */
  const Delimiter: char := ','

  /** Pieces joined back with the delimiter. */
  function Join(pieces: seq<string>): string {
    if pieces == [] then ""
    else if |pieces| == 1 then pieces[0]
    else pieces[0] + [Delimiter] + Join(pieces[1..])
  }

  /** The text between every two delimiters, empty pieces included. */
  function SplitAll(s: string): (pieces: seq<string>)
    ensures |pieces| >= 1
    ensures |pieces| == 1 <==> Delimiter !in s
    ensures forall p | p in pieces :: Delimiter !in p
    decreases |s|
  {
    if s == "" then [""]
    else
      var rest := SplitAll(s[1..]);
      assert s == [s[0]] + s[1..];
      if s[0] == Delimiter then [""] + rest
      else [[s[0]] + rest[0]] + rest[1..]
  }

  /** Prefixing the first piece with `c` prefixes the joined text with `c`. */
  lemma JoinPrepend(c: char, pieces: seq<string>)
    requires pieces != []
    ensures Join([[c] + pieces[0]] + pieces[1..]) == [c] + Join(pieces)
  {
    var longer := [[c] + pieces[0]] + pieces[1..];
    assert longer[0] == [c] + pieces[0] && longer[1..] == pieces[1..];
    if |pieces| > 1 {
      assert [c] + pieces[0] + [Delimiter] + Join(pieces[1..]) == [c] + (pieces[0] + [Delimiter] + Join(pieces[1..]));
    }
  }

  /** Joining the pieces gives back the split text. */
  lemma {:induction false} SplitAllRejoins(s: string)
    ensures Join(SplitAll(s)) == s
    decreases |s|
  {
    if s != "" {
      var rest := SplitAll(s[1..]);
      SplitAllRejoins(s[1..]);
      assert s == [s[0]] + s[1..];
      if s[0] == Delimiter {
        assert ([""] + rest)[1..] == rest;
      } else {
        JoinPrepend(s[0], rest);
      }
    }
  }

  /** The last piece is empty exactly when the text is empty or ends with the delimiter. */
  lemma {:induction false} SplitAllLastPiece(s: string)
    ensures var pieces := SplitAll(s); pieces[|pieces| - 1] == "" <==> s == "" || s[|s| - 1] == Delimiter
    decreases |s|
  {
    if s != "" {
      var tail := s[1..];
      var rest := SplitAll(tail);
      SplitAllLastPiece(tail);
      assert s == [s[0]] + tail;
      assert tail != "" ==> s[|s| - 1] == tail[|tail| - 1];
      if s[0] == Delimiter {
        assert SplitAll(s)[|SplitAll(s)| - 1] == rest[|rest| - 1];
      } else if |rest| > 1 {
        assert SplitAll(s)[|SplitAll(s)| - 1] == rest[|rest| - 1];
      } else {
        assert SplitAll(s) == [[s[0]] + rest[0]];
      }
    }
  }

  /** List pieces without their trailing empty ones (the limit-0 rule of String.split). */
  function DropTrailingEmpty(pieces: seq<string>): (r: seq<string>)
    ensures |r| <= |pieces| && r == pieces[..|r|]
    ensures forall i | |r| <= i < |pieces| :: pieces[i] == ""
    ensures r == [] || r[|r| - 1] != ""
    decreases |pieces|
  {
    if pieces == [] then []
    else if pieces[|pieces| - 1] == "" then DropTrailingEmpty(pieces[..|pieces| - 1])
    else pieces
  }

  /** `s.split(",")`: an input without a delimiter is the one piece `[s]`
      (so "" gives [""]); otherwise the pieces between delimiters with the
      trailing empty ones removed. */
  function Split(s: string): (pieces: seq<string>)
    ensures forall p | p in pieces :: Delimiter !in p
    ensures Delimiter in s ==> pieces <= SplitAll(s) && (pieces == [] || pieces[|pieces| - 1] != "")
  {
    if Delimiter !in s then [s] else DropTrailingEmpty(SplitAll(s))
  }

  /** `DOMAIN_LIST_TO_SYNCHRONIZE`: absent when the environment variable is unset. */
  function DomainListToSynchronize(environmentValue: Option<string>): (domains: Option<seq<string>>)
    ensures domains.None? <==> environmentValue.None?
  {
    if environmentValue.Some? then Some(Split(environmentValue.value)) else None
  }

  /** No piece of the list holds the delimiter, and the pieces are those of the
      value in order: put back before the dropped empty pieces and rejoined,
      they give the value. */
  lemma {:induction false} SplitPiecesFollowValue(s: string)
    ensures forall p | p in Split(s) :: Delimiter !in p
    ensures |Split(s)| <= |SplitAll(s)| && Split(s) == SplitAll(s)[..|Split(s)|]
    ensures forall i | |Split(s)| <= i < |SplitAll(s)| :: SplitAll(s)[i] == ""
    ensures Join(SplitAll(s)) == s
  {
    SplitAllRejoins(s);
    if Delimiter !in s {
      assert SplitAll(s) == [Join(SplitAll(s))];
    } else {
      var all := SplitAll(s);
      forall p | p in Split(s) ensures Delimiter !in p {
        assert p in all;
      }
    }
  }

  /** A value that does not end in a delimiter is rebuilt exactly by joining its list. */
  lemma {:induction false} SplitRejoins(s: string)
    requires s != "" && s[|s| - 1] != Delimiter
    ensures Join(Split(s)) == s
  {
    SplitAllRejoins(s);
    if Delimiter in s {
      SplitAllLastPiece(s);
      assert DropTrailingEmpty(SplitAll(s)) == SplitAll(s);
    }
  }

  /** Whether contacts of this address are synchronised: always without a list,
      otherwise exactly when the address's domain is listed. */
  predicate IsDomainSynchronized(domains: Option<seq<string>>, email: string)
    ensures domains.Some? && domains.value == [] ==> !IsDomainSynchronized(domains, email)
    ensures domains.Some? && '@' !in email ==> (IsDomainSynchronized(domains, email) <==> email in domains.value)
  {
    domains.None? || ExtractDomainFromEmail(email) in domains.value
  }

  /** A listed domain decides for every address of that domain, whatever its user name. */
  lemma SynchronizedByDomain(domains: Option<seq<string>>, username: string, domain: string)
    requires '@' !in username
    ensures IsDomainSynchronized(domains, username + "@" + domain) <==> domains.None? || domain in domains.value
  {
    EmailSplitsAtFirstAt(username + "@" + domain, username, domain);
  }

  /** An unset variable synchronises every domain. */
  lemma UnsetVariableAllowsAll(email: string)
    ensures IsDomainSynchronized(DomainListToSynchronize(None), email)
  {
  }
}
