/** Email addresses as the handlers hold them (internal/httpapi/respond.go). */
module Emails {
  /** What TrimSpace takes off, of the characters of ASCII. */
  predicate Blank(c: char) {
    '\t' <= c <= '\r' || c == ' '
  }

  predicate Upper(c: char) {
    'A' <= c <= 'Z'
  }

  function LowerChar(c: char): char {
    if Upper(c) then (c as int + 32) as char else c
  }

  function Lower(s: string): string {
    seq(|s|, i requires 0 <= i < |s| => LowerChar(s[i]))
  }

  function TrimLeft(s: string): string {
    if s != "" && Blank(s[0]) then TrimLeft(s[1..]) else s
  }

  function TrimRight(s: string): string {
    if s != "" && Blank(s[|s| - 1]) then TrimRight(s[..|s| - 1]) else s
  }

  function NormalizeEmail(s: string): string {
    Lower(TrimRight(TrimLeft(s)))
  }

  predicate NoUpper(s: string) {
    forall c :: c in s ==> !Upper(c)
  }

  predicate Normalized(s: string) {
    NoUpper(s) && (s == "" || (!Blank(s[0]) && !Blank(s[|s| - 1])))
  }

  lemma {:induction false} TrimLeftTrims(s: string)
    ensures TrimLeft(s) == "" || !Blank(TrimLeft(s)[0])
    decreases |s|
  {
    if s != "" && Blank(s[0]) {
      TrimLeftTrims(s[1..]);
    }
  }

  lemma {:induction false} TrimRightTrims(s: string)
    ensures TrimRight(s) <= s
    ensures TrimRight(s) == "" || (TrimRight(s)[0] == s[0] && !Blank(TrimRight(s)[|TrimRight(s)| - 1]))
    decreases |s|
  {
    if s != "" && Blank(s[|s| - 1]) {
      TrimRightTrims(s[..|s| - 1]);
    }
  }

  /** The addresses normalizing can result in are those it leaves alone. */
  lemma NormalizedExactly(s: string)
    ensures (exists raw :: NormalizeEmail(raw) == s) <==> Normalized(s)
    ensures Normalized(s) ==> NormalizeEmail(s) == s
  {
    hide TrimLeft, TrimRight, Lower;
    if raw :| NormalizeEmail(raw) == s {
      TrimLeftTrims(raw);
      TrimRightTrims(TrimLeft(raw));
      LowerSettles(TrimRight(TrimLeft(raw)));
    }
    if Normalized(s) {
      NothingToTrim(s);
      LowerLeaves(s);
      assert NormalizeEmail(s) == s;
    }
  }

  lemma NothingToTrim(s: string)
    requires Normalized(s)
    ensures TrimRight(TrimLeft(s)) == s
  {
  }

  lemma LowerLeaves(s: string)
    requires NoUpper(s)
    ensures Lower(s) == s
  {
    assert forall i :: 0 <= i < |s| ==> s[i] in s;
  }

  lemma LowerSettles(s: string)
    ensures |Lower(s)| == |s| && NoUpper(Lower(s)) && forall i :: 0 <= i < |s| ==> (Blank(Lower(s)[i]) <==> Blank(s[i]))
  {
    assert forall i :: 0 <= i < |s| ==> Lower(s)[i] == LowerChar(s[i]);
  }

  /** Trimming takes off what blanks there are in front and behind, and no more; lowering changes only letters. */
  lemma NormalizesAsExpected()
    ensures NormalizeEmail(" \tAnn.Z@X.io\n") == "ann.z@x.io" && NormalizeEmail("a b") == "a b" && NormalizeEmail(" \r\n") == ""
  {
    assert TrimLeft(" \tAnn.Z@X.io\n") == "Ann.Z@X.io\n" && TrimRight("Ann.Z@X.io\n") == "Ann.Z@X.io" && Lower("Ann.Z@X.io") == "ann.z@x.io";
    assert TrimLeft("a b") == "a b" && TrimRight("a b") == "a b" && Lower("a b") == "a b";
    assert TrimLeft(" \r\n") == "" && TrimRight("") == "" && Lower("") == "";
  }

  function FirstAt(s: string): nat {
    if s == "" || s[0] == '@' then 0 else 1 + FirstAt(s[1..])
  }

  predicate NoBlanks(s: string) {
    forall c :: c in s ==> c != ' ' && c != '\r' && c != '\n' && c != '\t'
  }

  /** What the server takes for an email address. */
  predicate ValidEmail(s: string) {
    0 < FirstAt(s) < |s| - 1 && NoBlanks(s) && '.' in s[FirstAt(s) + 1..]
  }

  /** There is something before the first '@', something after it, a dot somewhere after it, and no blank. */
  lemma ValidEmailExactly(s: string)
    ensures ValidEmail(s) <==>
            exists at :: 0 < at < |s| - 1 && s[at] == '@' && '@' !in s[..at] && '.' in s[at + 1..] && NoBlanks(s)
  {
    FirstAtIs(s);
    if ValidEmail(s) {
      assert s[FirstAt(s)] == '@';
    }
    if at: nat :| 0 < at < |s| - 1 && s[at] == '@' && '@' !in s[..at] && '.' in s[at + 1..] && NoBlanks(s) {
      FirstAtShifts(s[..at], s[at..]);
      assert s == s[..at] + s[at..];
    }
  }

  lemma {:induction false} FirstAtIs(s: string)
    ensures FirstAt(s) <= |s| && '@' !in s[..FirstAt(s)] && (FirstAt(s) < |s| ==> s[FirstAt(s)] == '@')
    decreases |s|
  {
    if s == "" || s[0] == '@' {
    } else {
      FirstAtIs(s[1..]);
      assert s[..FirstAt(s)] == [s[0]] + s[1..][..FirstAt(s[1..])];
    }
  }

  /** An address a code can be asked for. */
  predicate Accepted(s: string) {
    Normalized(s) && ValidEmail(s)
  }

  lemma {:induction false} FirstAtShifts(before: string, s: string)
    ensures FirstAt(before + s) == if '@' in before then FirstAt(before) else |before| + FirstAt(s)
    ensures FirstAt(before) <= |before| && ('@' in before ==> FirstAt(before) < |before|)
    decreases |before|
  {
    if before == "" {
      assert before + s == s;
    } else {
      FirstAtShifts(before[1..], s);
      assert (before + s)[1..] == before[1..] + s;
      assert before[0] != '@' ==> ('@' in before <==> '@' in before[1..]);
    }
  }
}

/** The key a login code is stored under (internal/httpapi/otp.go). */
module OtpIdentifiers {
  import opened Emails

  /** Scopes a code to one client. */
  function OtpIdentifier(clientId: string, email: string): string {
    clientId + "|" + email
  }

  /** Neither id goes on, after a '|', where the other ends. */
  predicate Separate(c: string, d: string) {
    !(c + "|" <= d) && !(d + "|" <= c)
  }

  /** An identifier shared by two clients would make one client's id the beginning of the other's. */
  lemma SharedIdentifier(c: string, e: string, d: string, f: string)
    requires |c| <= |d| && OtpIdentifier(c, e) == OtpIdentifier(d, f)
    ensures (c == d && e == f) || (c + "|" <= d && e == d[|c| + 1..] + "|" + f)
  {
    var s := OtpIdentifier(c, e);
    assert s[..|c|] == c && s[..|d|] == d && s[|c|] == '|' && s[|c| + 1..] == e && s[|d| + 1..] == f;
    if |c| < |d| {
      assert d[..|c|] == c && d[|c|] == '|';
      assert s == d + "|" + f;
      assert s[|c| + 1..] == d[|c| + 1..] + "|" + f;
    }
  }

  /** The identifiers of two clients differ, whatever the strings taken for emails, if and only if their ids are
      separate. */
  lemma SeparateExactly(c: string, d: string)
    requires c != d
    ensures (forall e, f :: OtpIdentifier(c, e) != OtpIdentifier(d, f)) <==> Separate(c, d)
  {
    if !Separate(c, d) {
      if c + "|" <= d {
        OtpIdentifierCollides(c, d, "");
      } else {
        OtpIdentifierCollides(d, c, "");
      }
    }
    forall e, f | OtpIdentifier(c, e) == OtpIdentifier(d, f) ensures !Separate(c, d) {
      if |c| <= |d| {
        SharedIdentifier(c, e, d, f);
      } else {
        SharedIdentifier(d, f, c, e);
      }
    }
  }

  /** Of ids that are not separate, the shorter has a name for every email of the longer. */
  lemma OtpIdentifierCollides(c: string, d: string, f: string)
    requires c + "|" <= d
    ensures OtpIdentifier(c, d[|c| + 1..] + "|" + f) == OtpIdentifier(d, f)
  {
    assert d == c + "|" + d[|c| + 1..];
  }

  // --- The addresses there can be -------------------------------------------------------------------------

  /** What comes after the '|' is as the beginning of a normalized address: in lower case, with no leading blank. */
  predicate Settled(g: string) {
    NoUpper(g) && (g == "" || !Blank(g[0]))
  }

  /** It can also begin an address that a code is sent to: it has no blank at all and does not begin with '@'. */
  predicate Askable(g: string) {
    Settled(g) && NoBlanks(g) && (g == "" || g[0] != '@')
  }

  lemma SettledExactly(g: string, f: string)
    requires Normalized(f) && f != ""
    ensures Normalized(g + "|" + f) <==> Settled(g)
  {
    var s := g + "|" + f;
    assert s[|s| - 1] == f[|f| - 1] && s[0] == (if g == "" then '|' else g[0]);
    assert forall c :: c in s <==> c in g || c == '|' || c in f;
  }

  /** The beginning of an accepted address is askable, and the other way round before an accepted one. */
  lemma AskableExactly(g: string, f: string)
    ensures Accepted(g + "|" + f) ==> Askable(g)
    ensures Accepted(f) ==> (Accepted(g + "|" + f) <==> Askable(g))
  {
    hide NoBlanks, ValidEmail, NoUpper;
    if Accepted(g + "|" + f) {
      BeginsAskable(g, f);
    } else if Accepted(f) && Askable(g) {
      SettledExactly(g, f) by { assert f != "" by { ValidIsThere(f); } }
      StaysValid(g, f);
    }
  }

  lemma ValidIsThere(f: string)
    requires ValidEmail(f)
    ensures f != ""
  {
  }

  lemma BeginsAskable(g: string, f: string)
    requires Accepted(g + "|" + f)
    ensures Askable(g)
  {
    var s := g + "|" + f;
    assert forall c :: c in g ==> c in s;
    assert g != "" ==> s[0] == g[0];
  }

  lemma StaysValid(g: string, f: string)
    requires NoBlanks(g) && ValidEmail(f) && (g == "" || g[0] != '@')
    ensures ValidEmail(g + "|" + f)
  {
    var before, s := g + "|", g + "|" + f;
    assert s == before + f && s[0] == (if g == "" then '|' else g[0]);
    FirstAtShifts(before, f);
    assert forall c :: c in s <==> c in g || c == '|' || c in f;
    DotStays(before, f);
  }

  lemma DotStays(before: string, f: string)
    requires ValidEmail(f)
    ensures FirstAt(before + f) < |before + f| - 1 && '.' in (before + f)[FirstAt(before + f) + 1..]
  {
    FirstAtShifts(before, f);
    var k: nat :| k < |f[FirstAt(f) + 1..]| && f[FirstAt(f) + 1..][k] == '.';
    var s, j := before + f, |before| + FirstAt(f) + 1 + k;
    assert s[j] == '.';
    assert s[FirstAt(s) + 1..][j - FirstAt(s) - 1] == '.';
  }

  /** The longer id goes on, after the '|', with what can be the beginning of an address. */
  predicate Meets(c: string, d: string) {
    c + "|" <= d && Settled(d[|c| + 1..])
  }

  predicate Apart(c: string, d: string) {
    !Meets(c, d) && !Meets(d, c)
  }

  const ADDRESS := "c@x.io"

  lemma AddressAccepted()
    ensures Accepted(ADDRESS)
  {
    assert FirstAt("c@x.io") == 1 by {
      assert "c@x.io"[1..] == "@x.io";
    }
    assert ADDRESS[2..][1] == '.';
  }

  /** The identifiers of two clients differ for all addresses there can be if and only if their ids are apart. */
  lemma ApartExactly(c: string, d: string)
    requires c != d
    ensures (forall e, f :: Normalized(e) && Normalized(f) ==> OtpIdentifier(c, e) != OtpIdentifier(d, f)) <==> Apart(c, d)
  {
    AddressAccepted();
    if Meets(c, d) {
      MeetingCollides(c, d, ADDRESS);
    } else if Meets(d, c) {
      MeetingCollides(d, c, ADDRESS);
    }
    forall e, f | Normalized(e) && Normalized(f) && OtpIdentifier(c, e) == OtpIdentifier(d, f) ensures !Apart(c, d) {
      if |c| <= |d| {
        CollidingMeets(c, e, d, f);
      } else {
        CollidingMeets(d, f, c, e);
      }
    }
  }

  /** For ids that meet, the shorter's name for an address of the longer is an address, too; and it is one a code
      is sent to exactly if what comes after the '|' is askable. */
  lemma MeetingCollides(c: string, d: string, f: string)
    requires c + "|" <= d && Accepted(f)
    ensures var e := d[|c| + 1..] + "|" + f;
      && OtpIdentifier(c, e) == OtpIdentifier(d, f)
      && (Normalized(e) <==> Meets(c, d)) && (Accepted(e) <==> Askable(d[|c| + 1..]))
  {
    OtpIdentifierCollides(c, d, f);
    SettledExactly(d[|c| + 1..], f);
    AskableExactly(d[|c| + 1..], f);
  }

  lemma CollidingMeets(c: string, e: string, d: string, f: string)
    requires |c| <= |d| && c != d && OtpIdentifier(c, e) == OtpIdentifier(d, f) && Normalized(e) && Normalized(f)
    ensures Meets(c, d)
  {
    SharedIdentifier(c, e, d, f);
    var g := d[|c| + 1..];
    assert forall x :: x in g ==> x in e;
    assert g != "" ==> e[0] == g[0];
  }

  ghost predicate AllApart(clients: set<string>) {
    forall c, d :: c in clients && d in clients && c != d ==> Apart(c, d)
  }

  lemma IdentifierInjective(c: string, e: string, d: string, f: string)
    requires (c == d || Apart(c, d)) && Normalized(e) && Normalized(f) && OtpIdentifier(c, e) == OtpIdentifier(d, f)
    ensures c == d && e == f
  {
    if c != d {
      ApartExactly(c, d);
    }
    assert OtpIdentifier(c, e)[|c| + 1..] == e && OtpIdentifier(d, f)[|d| + 1..] == f;
  }

  ghost predicate Identifies(clients: set<string>) {
    forall c, e, d, f :: c in clients && d in clients && Normalized(e) && Normalized(f) && OtpIdentifier(c, e) == OtpIdentifier(d, f) ==>
      c == d && e == f
  }

  /** Among the clients there are, the identifier determines client and address if and only if the ids are
      pairwise apart. */
  lemma IdentifiesExactly(clients: set<string>)
    ensures Identifies(clients) <==> AllApart(clients)
  {
    hide Normalized, Apart;
    if AllApart(clients) {
      forall c, e, d, f | c in clients && d in clients && Normalized(e) && Normalized(f) && OtpIdentifier(c, e) == OtpIdentifier(d, f)
        ensures c == d && e == f
      {
        IdentifierInjective(c, e, d, f);
      }
    }
    if Identifies(clients) {
      forall c, d | c in clients && d in clients && c != d ensures Apart(c, d) {
        ApartExactly(c, d);
      }
    }
  }

  // --- Addresses that share their guesses ----------------------------------------------------------------------

  /** A code asked for at `f` by one of the clients can be guessed at `e` with one of the clients. */
  ghost predicate Served(clients: set<string>, e: string, f: string) {
    Accepted(f) && exists c, d :: c in clients && d in clients && OtpIdentifier(c, e) == OtpIdentifier(d, f)
  }

  /** Some client's id goes on, after another's and a '|', with `g`. */
  ghost predicate Tail(clients: set<string>, g: string) {
    exists c :: c in clients && c + "|" + g in clients
  }

  /** `g` is a tail, and either askable itself or askable `b` after another tail. */
  ghost predicate Crowds(clients: set<string>, g: string, b: string) {
    Tail(clients, g) && Settled(g) && Askable(b) && (b == g || exists h :: Tail(clients, h) && g == h + "|" + b)
  }

  ghost predicate Crowded(clients: set<string>) {
    exists g, b :: Crowds(clients, g, b)
  }

  /** The address `long` is `short` behind a tail. */
  ghost predicate Behind(clients: set<string>, long: string, short: string, g: string) {
    Tail(clients, g) && long == g + "|" + short
  }

  lemma ServedBehind(clients: set<string>, e: string, f: string)
    requires Served(clients, e, f)
    ensures e == f || (exists g :: Behind(clients, e, f, g)) || (exists g :: Behind(clients, f, e, g))
  {
    var c, d :| c in clients && d in clients && OtpIdentifier(c, e) == OtpIdentifier(d, f);
    if |c| <= |d| {
      SharedIdentifier(c, e, d, f);
      if c != d {
        assert d == c + "|" + d[|c| + 1..];
        assert Behind(clients, e, f, d[|c| + 1..]);
      }
    } else {
      SharedIdentifier(d, f, c, e);
      assert c == d + "|" + c[|d| + 1..];
      assert Behind(clients, f, e, c[|d| + 1..]);
    }
  }

  /** Where the clients do not crowd an address, all codes that can be guessed at it were asked for at one. */
  lemma OneSource(clients: set<string>, e: string, f: string, f': string)
    requires !Crowded(clients) && Normalized(e) && Served(clients, e, f) && Served(clients, e, f')
    ensures f == f'
  {
    hide Normalized, Accepted, Settled, Askable, Tail, Served;
    ShorterSource(clients, e, f);
    ShorterSource(clients, e, f');
    if e != f && e != f' {
      var g :| Behind(clients, e, f, g);
      var g' :| Behind(clients, e, f', g');
      if |g| < |g'| {
        TwoTails(clients, e, f', f, g', g);
      } else if |g'| < |g| {
        TwoTails(clients, e, f, f', g, g');
      } else {
        assert f == e[|g| + 1..] == f';
      }
    } else if e != f {
      var g :| Behind(clients, e, f, g);
      AskableCrowds(clients, g, f);
    } else if e != f' {
      var g :| Behind(clients, e, f', g);
      AskableCrowds(clients, g, f');
    }
  }

  lemma AskableCrowds(clients: set<string>, g: string, x: string)
    requires !Crowded(clients) && Tail(clients, g)
    ensures !Accepted(g + "|" + x)
  {
    AskableExactly(g, x);
    assert Askable(g) ==> Crowds(clients, g, g);
  }

  lemma ShorterSource(clients: set<string>, e: string, f: string)
    requires !Crowded(clients) && Served(clients, e, f)
    ensures Accepted(f) && (e == f || exists g :: Behind(clients, e, f, g))
  {
    hide Accepted, Tail;
    ServedBehind(clients, e, f);
    if g :| Behind(clients, f, e, g) {
      AskableCrowds(clients, g, e);
    }
  }

  lemma TwoTails(clients: set<string>, e: string, f: string, f': string, g: string, g': string)
    requires Normalized(e) && Accepted(f') && |g'| < |g|
    requires Behind(clients, e, f, g) && Behind(clients, e, f', g')
    ensures Crowded(clients)
  {
    assert e[..|g|] == g && e[..|g'|] == g' && e[|g'|] == '|';
    var b := g[|g'| + 1..];
    assert g[..|g'|] == g' && g[|g'|] == '|';
    assert g == g' + "|" + b;
    assert e[|g'| + 1..] == f' && e[|g'| + 1..] == b + "|" + f;
    AskableExactly(b, f);
    assert forall x :: x in g ==> x in e;
    assert g[0] == e[0];
    assert Crowds(clients, g, b);
  }

  /** Two addresses whose codes can be guessed at a third one, or at one of the two. */
  datatype Crowding = Crowding(e: string, c: string, d: string, f: string, c': string, d': string, f': string)

  predicate Shares(x: Crowding, clients: set<string>) {
    && x.c in clients && x.d in clients && x.c' in clients && x.d' in clients
    && OtpIdentifier(x.c, x.e) == OtpIdentifier(x.d, x.f) && OtpIdentifier(x.c', x.e) == OtpIdentifier(x.d', x.f')
    && x.f != x.f' && Normalized(x.e) && Accepted(x.f) && Accepted(x.f')
  }

  lemma CrowdedShares(clients: set<string>) returns (x: Crowding)
    requires Crowded(clients)
    ensures Shares(x, clients)
  {
    hide Normalized, Accepted, Settled, Askable;
    AddressAccepted();
    var g, b :| Crowds(clients, g, b);
    var c :| c in clients && c + "|" + g in clients;
    var e, d := g + "|" + ADDRESS, c + "|" + g;
    assert d[|c| + 1..] == g;
    OtpIdentifierCollides(c, d, ADDRESS);
    assert ADDRESS != "" && Normalized(ADDRESS) by { AcceptedIsNormalized(ADDRESS); }
    SettledExactly(g, ADDRESS);
    AskableExactly(b, ADDRESS);
    assert |b + "|" + ADDRESS| > |ADDRESS|;
    if b == g {
      x := Crowding(e, c, c, e, c, d, ADDRESS);
    } else {
      var h :| Tail(clients, h) && g == h + "|" + b;
      var c' :| c' in clients && c' + "|" + h in clients;
      var d' := c' + "|" + h;
      assert d'[|c'| + 1..] == h;
      OtpIdentifierCollides(c', d', b + "|" + ADDRESS);
      assert h + "|" + (b + "|" + ADDRESS) == e;
      x := Crowding(e, c', d', b + "|" + ADDRESS, c, d, ADDRESS);
    }
  }

  lemma AcceptedIsNormalized(s: string)
    requires Accepted(s)
    ensures Normalized(s)
  {
  }

  /** No tail need be askable for that. */
  lemma UnaskableTailsCrowd()
    ensures Crowded({"1", "1|a b", "2", "2|a b|h"}) && !Askable("a b") && !Askable("a b|h")
  {
    var clients := {"1", "1|a b", "2", "2|a b|h"};
    assert "1" in clients && "1" + "|" + "a b" == "1|a b" && Tail(clients, "a b");
    assert "2" in clients && "2" + "|" + "a b|h" == "2|a b|h" && Tail(clients, "a b|h");
    hide Tail;
    BlankIsUnaskable("a b", 1);
    BlankIsUnaskable("a b|h", 1);
    assert "a b" + "|" + "h" == "a b|h" && Settled("a b|h") && Askable("h");
    assert Crowds(clients, "a b|h", "h");
  }

  lemma BlankIsUnaskable(g: string, k: nat)
    requires k < |g| && g[k] == ' '
    ensures !Askable(g)
  {
    assert ' ' in g;
  }

  /** Ids that are pairwise apart crowd no address. */
  lemma ApartIsUncrowded(clients: set<string>)
    requires AllApart(clients)
    ensures !Crowded(clients)
  {
    if g, b :| Crowds(clients, g, b) {
      var c :| c in clients && c + "|" + g in clients;
      assert (c + "|" + g)[|c| + 1..] == g;
      assert Meets(c, c + "|" + g);
    }
  }
}
