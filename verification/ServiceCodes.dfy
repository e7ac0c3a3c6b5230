/** The codes and links that are sent to an address: how long each is good for, and what uses it up, over runs of
    requests. */
module ServiceCodes {
  import opened Prelude
  import opened Accounts
  import opened OtpIdentifiers
  import opened Passwords
  import opened Service
  import opened ServiceRuns
  import opened ServiceReplies
  import Codes
  import CodeRuns
  import Sessions
  import SessionRuns
  import SessionHandlers
  import ServiceAccounts

  /** The key's current code, whether its row is still in the table or has expired and been pruned. */
  ghost predicate HasSlot(d: Codes.Db, k: Codes.Key, s: Codes.Slot) {
    exists m :: Codes.Refines(d, m) && k in m && m[k] == s
  }

  /** The call supersedes, guesses at or redeems the key's code. */
  predicate Touches(c: Codes.Event, k: Codes.Key, secret: string) {
    match c
    case Issue(key, _, _, _, _, _) => key == k
    case Guess(key, _, _) => key == k
    case Redeem(p, tok, _) => p == k.purpose && tok == secret
    case Prune(_, _) => false
  }

  lemma CallSpares(d: Codes.Db, c: Codes.Event, k: Codes.Key, s: Codes.Slot)
    requires HasSlot(d, k, s) && Codes.Enabled(d, c) && !Touches(c, k, s.secret)
    ensures HasSlot(Codes.Apply(d, c).0, k, s)
  {
    hide Codes.Refines, Codes.Apply, Codes.Enabled;
    var m :| Codes.Refines(d, m) && k in m && m[k] == s;
    Codes.StepRefines(d, m, c);
    var m' := Codes.Simple(m, c).0;
    assert k in m' && m'[k] == s;
  }

  /** Issuing makes the code the key's current one. */
  lemma IssueMakes(d: Codes.Db, c: Codes.Event)
    requires CodeRuns.Reachable(d) && Codes.Enabled(d, c) && c.Issue?
    ensures HasSlot(Codes.Apply(d, c).0, c.key, Codes.Slot(c.id, c.secret, 0, c.at + c.ttl))
  {
    hide Codes.Refines, Codes.Apply, Codes.Enabled, CodeRuns.Reachable;
    var m := CodeRuns.ReachableRefines(d);
    Codes.StepRefines(d, m, c);
    var m' := Codes.Simple(m, c).0;
    assert c.key in m' && m'[c.key] == Codes.Slot(c.id, c.secret, 0, c.at + c.ttl);
  }

  /** Redeeming it works until it expires, and names the key. */
  lemma RedeemReplies(d: Codes.Db, k: Codes.Key, s: Codes.Slot, at: Time)
    requires HasSlot(d, k, s) && Codes.Emailed(k.purpose) && d.clock <= at
    ensures Codes.Apply(d, Codes.Redeem(k.purpose, s.secret, at)).1 ==
            if at <= s.expiresAt then Codes.Redeemed(k.identifier) else Codes.CodeInvalid
  {
    var m :| Codes.Refines(d, m) && k in m && m[k] == s;
    var c := Codes.Redeem(k.purpose, s.secret, at);
    OnlySlot(d, m, k);
    hide Codes.Refines, Codes.Apply;
    Codes.StepRefines(d, m, c);
    assert Codes.HoldsSlot(m, k.purpose, s.secret, k);
  }

  lemma OnlySlot(d: Codes.Db, m: Codes.Slots, k: Codes.Key)
    requires Codes.Refines(d, m) && k in m && Codes.Emailed(k.purpose)
    ensures forall l :: Codes.HoldsSlot(m, k.purpose, m[k].secret, l) ==> l == k
  {
  }

  /** Guessing at it: the right code is accepted until it expires; of wrong ones it survives four. */
  lemma GuessReplies(d: Codes.Db, k: Codes.Key, s: Codes.Slot, guess: string, at: Time)
    requires HasSlot(d, k, s) && d.clock <= at
    ensures var c := Codes.Guess(k, guess, at); var r := Codes.Apply(d, c).1;
      && r == (if s.expiresAt < at then Codes.CodeInvalid
               else if guess == s.secret then Codes.Accepted
               else if s.attempts == 4 then Codes.CodeAttempts
               else Codes.CodeInvalid)
      && (s.expiresAt < at ==> HasSlot(Codes.Apply(d, c).0, k, s))
      && (at <= s.expiresAt && guess != s.secret && s.attempts != 4 ==>
            HasSlot(Codes.Apply(d, c).0, k, s.(attempts := s.attempts + 1)))
  {
    hide Codes.Refines, Codes.Apply;
    var m :| Codes.Refines(d, m) && k in m && m[k] == s;
    var c := Codes.Guess(k, guess, at);
    Codes.StepRefines(d, m, c);
    var m' := Codes.Simple(m, c).0;
    if s.expiresAt < at {
      assert k in m' && m'[k] == s;
    } else if guess != s.secret && s.attempts != 4 {
      assert k in m' && m'[k] == s.(attempts := s.attempts + 1);
    }
  }

  // --- Links ----------------------------------------------------------------------------------------------------

  /** The request neither sends the user another link for this purpose nor uses this one. */
  ghost predicate SparesLink(w: World, e: Request, p: Codes.Purpose, u: UserId, tok: string) {
    match e
    case SendVerification(v, _, _, _) => p.EmailVerify? ==> v != u
    case VerifyEmail(_, t, _) => p.EmailVerify? && Admits(w, e) ==> t != tok
    case Forgot(_, email, _, _, _) => p.PasswordReset? && Admits(w, e) ==> !HasEmail(w.t, u, email)
    case Reset(_, t, password, _, _) => p.PasswordReset? && Admits(w, e) && 10 <= |password| ==> t != tok
    case _ => true
  }

  ghost predicate AllSpareLink(w: World, evs: seq<Request>, p: Codes.Purpose, u: UserId, tok: string, kdf: Kdf)
    decreases |evs|
  {
    evs == [] || (SparesLink(w, evs[0], p, u, tok) && AllSpareLink(Next(w, evs[0], kdf), evs[1..], p, u, tok, kdf))
  }

  lemma OneCodeCall(w: World, e: Request, kdf: Kdf)
    requires WorldOk(w) && Enabled(w, e)
    ensures |CodeEvents(w, e)| <= 1
    ensures CodeEvents(w, e) == [] ==> Next(w, e, kdf).codes == w.codes
    ensures CodeEvents(w, e) != [] ==>
      Next(w, e, kdf).codes == Codes.Apply(w.codes, CodeEvents(w, e)[0]).0 && Codes.Enabled(w.codes, CodeEvents(w, e)[0]) && CodeEvents(w, e)[0].at == e.at
  {
    hide SessionRuns.Reachable, CodeRuns.Reachable, TablesInv, Admits, Codes.Apply;
    hide TablesAfter, SessionEvents, OAuthCalls, CountsAfter, PasswordsAfter, OAuthAfter, CodeRuns.Final;
    NoEvents(w.sessions, w.codes);
    if CodeEvents(w, e) != [] {
      assert CodeEvents(w, e) == [CodeEvents(w, e)[0]];
      OneCodeEvent(w.codes, CodeEvents(w, e)[0]);
    }
  }

  lemma RequestSparesLink(w: World, e: Request, p: Codes.Purpose, u: UserId, s: Codes.Slot, kdf: Kdf)
    requires WorldOk(w) && Enabled(w, e) && Codes.Emailed(p) && HasSlot(w.codes, Codes.Key(u, p), s) && SparesLink(w, e, p, u, s.secret)
    ensures HasSlot(Next(w, e, kdf).codes, Codes.Key(u, p), s)
  {
    hide SessionRuns.Reachable, CodeRuns.Reachable, TablesInv, Admits, Codes.Apply, HasSlot, Codes.Enabled, Next, Enabled;
    OneCodeCall(w, e, kdf);
    if e.Forgot? {
      NoOwnerIsFree(w.t, e.email);
    }
    if CodeEvents(w, e) != [] {
      CallSpares(w.codes, CodeEvents(w, e)[0], Codes.Key(u, p), s);
    }
  }

  lemma {:induction false} LinkStays(w: World, evs: seq<Request>, p: Codes.Purpose, u: UserId, s: Codes.Slot, kdf: Kdf)
    requires WorldOk(w) && ValidRun(w, evs, kdf) && Codes.Emailed(p) && HasSlot(w.codes, Codes.Key(u, p), s)
    requires AllSpareLink(w, evs, p, u, s.secret, kdf)
    ensures HasSlot(Final(w, evs, kdf).codes, Codes.Key(u, p), s)
    decreases |evs|
  {
    hide WorldOk, Enabled, Next, HasSlot, SparesLink;
    if evs == [] {
    } else {
      StepKeepsOk(w, evs[0], kdf);
      RequestSparesLink(w, evs[0], p, u, s, kdf);
      LinkStays(Next(w, evs[0], kdf), evs[1..], p, u, s, kdf);
    }
  }

  lemma CodesClock(w: World, e: Request)
    requires WorldOk(w) && Enabled(w, e)
    ensures w.codes.clock <= e.at && CodeRuns.Reachable(w.codes)
  {
    hide SessionRuns.Reachable, CodeRuns.Reachable, TablesInv;
  }

  /** Asking for a reset of a registered address makes the token its user's current one, and says Done; asking for an
      unknown address says Done, too, and stores nothing. */
  lemma ForgotSends(w: World, f: Request, u: UserId, kdf: Kdf)
    requires WorldOk(w) && Enabled(w, f) && f.Forgot? && Admits(w, f)
    ensures ReplyTo(w, f, kdf) == Done
    ensures HasEmail(w.t, u, f.email) ==>
      HasSlot(Next(w, f, kdf).codes, Codes.Key(u, Codes.PasswordReset), Codes.Slot(f.id, f.token, 0, f.at + HOUR))
    ensures EmailFree(w.t, f.email) ==> Next(w, f, kdf).codes == w.codes
  {
    hide SessionRuns.Reachable, CodeRuns.Reachable, TablesInv, Admits, Codes.Apply, HasSlot, Codes.Enabled, Next;
    OneCodeCall(w, f, kdf);
    CodesClock(w, f);
    UserByEmailUnique(w.t, u, f.email);
    NoOwnerIsFree(w.t, f.email);
    if HasEmail(w.t, u, f.email) {
      IssueMakes(w.codes, CodeEvents(w, f)[0]);
    }
  }

  /** From forgetting to resetting: whatever requests come in between, so long as none sends the user a newer link or
      uses this one, the token resets the password of the user of the address, if and only if that is within the
      hour. */
  lemma ForgotThenReset(w: World, f: Request, evs: seq<Request>, r: Request, u: UserId, kdf: Kdf)
    requires WorldOk(w) && Enabled(w, f) && f.Forgot? && Admits(w, f) && HasEmail(w.t, u, f.email)
    requires ValidRun(Next(w, f, kdf), evs, kdf) && AllSpareLink(Next(w, f, kdf), evs, Codes.PasswordReset, u, f.token, kdf)
    requires r.Reset? && r.token == f.token && 10 <= |r.password| && Enabled(Final(Next(w, f, kdf), evs, kdf), r)
    requires Admits(Final(Next(w, f, kdf), evs, kdf), r)
    ensures var w' := Final(Next(w, f, kdf), evs, kdf);
      && ReplyTo(w', r, kdf) == (if r.at <= f.at + HOUR then Done else Denied(InvalidToken))
      && (r.at <= f.at + HOUR ==>
            && u in w'.t.users && Next(w', r, kdf).passwords == w'.passwords[u := ServiceAccounts.StoredHash(r.password, r.salt, kdf)]
            && SessionHandlers.NoLiveSession(Next(w', r, kdf).sessions.rows, u))
  {
    hide WorldOk, Enabled, Next, Final, ValidRun, HasSlot, Admits, Codes.Apply, SparesLink, SessionHandlers.NoLiveSession;
    var n, w', s := Next(w, f, kdf), Final(Next(w, f, kdf), evs, kdf), Codes.Slot(f.id, f.token, 0, f.at + HOUR);
    ForgotSends(w, f, u, kdf);
    StepKeepsOk(w, f, kdf);
    LinkStays(n, evs, Codes.PasswordReset, u, s, kdf);
    RunKeepsOk(n, evs, kdf);
    CodesClock(w', r);
    RedeemReplies(w'.codes, Codes.Key(u, Codes.PasswordReset), s, r.at);
    if r.at <= f.at + HOUR {
      UserThere(w, f, evs, u, kdf);
      ServiceAccounts.ResetStores(w', r, u, kdf);
      ResetEndsSessions(w', r, u, kdf);
    }
  }

  lemma UserThere(w: World, e: Request, evs: seq<Request>, u: UserId, kdf: Kdf)
    requires WorldOk(w) && Enabled(w, e) && u in w.t.users && ValidRun(Next(w, e, kdf), evs, kdf)
    ensures u in Final(Next(w, e, kdf), evs, kdf).t.users
  {
    hide WorldOk, Enabled, Next, Final, ValidRun;
    ServiceAccounts.RequestKeepsUser(w, e, u);
    ServiceAccounts.NextTables(w, e, kdf);
    ServiceAccounts.RunKeepsUser(Next(w, e, kdf), evs, u, kdf);
  }

  lemma ResetEndsSessions(w: World, r: Request, u: UserId, kdf: Kdf)
    requires r.Reset? && ReplyTo(w, r, kdf).Done? && Redemption(w, Codes.PasswordReset, r.token, r.at) == Codes.Redeemed(u)
    ensures SessionHandlers.NoLiveSession(Next(w, r, kdf).sessions.rows, u)
  {
    hide Admits, Codes.Apply, Sessions.Apply, OAuthAfter, CodeEvents, SessionRuns.Final, CodeRuns.Final, SessionHandlers.NoLiveSession;
    OneSessionEvent(w.sessions, Sessions.RevokeAllForUser(u, r.at));
    RevokingAllLeavesNone(w.sessions, u, r.at);
  }

  /** The verification link that registering sends, to a user who has not proved the address, verifies the user, if and
      only if it is used within a day; to anyone else nothing is sent. */
  lemma SentThenVerified(w: World, s: Request, evs: seq<Request>, v: Request, kdf: Kdf)
    requires WorldOk(w) && Enabled(w, s) && s.SendVerification? && s.userId in w.t.users && w.t.users[s.userId].verifiedAt.None?
    requires ValidRun(Next(w, s, kdf), evs, kdf) && AllSpareLink(Next(w, s, kdf), evs, Codes.EmailVerify, s.userId, s.token, kdf)
    requires v.VerifyEmail? && v.token == s.token && Enabled(Final(Next(w, s, kdf), evs, kdf), v) && Admits(Final(Next(w, s, kdf), evs, kdf), v)
    ensures var w' := Final(Next(w, s, kdf), evs, kdf);
      && ReplyTo(w', v, kdf) == (if v.at <= s.at + DAY then Done else Denied(InvalidToken))
      && s.userId in Next(w', v, kdf).t.users
      && (v.at <= s.at + DAY ==> Next(w', v, kdf).t.users[s.userId].verifiedAt.Some?)
  {
    hide WorldOk, Enabled, Next, Final, ValidRun, HasSlot, Admits, Codes.Apply, SparesLink;
    var n, w', k := Next(w, s, kdf), Final(Next(w, s, kdf), evs, kdf), Codes.Key(s.userId, Codes.EmailVerify);
    var slot := Codes.Slot(s.id, s.token, 0, s.at + DAY);
    VerificationSends(w, s, kdf);
    StepKeepsOk(w, s, kdf);
    LinkStays(n, evs, Codes.EmailVerify, s.userId, slot, kdf);
    RunKeepsOk(n, evs, kdf);
    CodesClock(w', v);
    RedeemReplies(w'.codes, k, slot, v.at);
    UserThere(w, s, evs, s.userId, kdf);
    ServiceAccounts.NextTables(w', v, kdf);
    ServiceAccounts.RequestKeepsUser(w', v, s.userId);
  }

  lemma VerificationSends(w: World, s: Request, kdf: Kdf)
    requires WorldOk(w) && Enabled(w, s) && s.SendVerification?
    ensures if s.userId in w.t.users && w.t.users[s.userId].verifiedAt.None? then
              HasSlot(Next(w, s, kdf).codes, Codes.Key(s.userId, Codes.EmailVerify), Codes.Slot(s.id, s.token, 0, s.at + DAY))
            else
              Next(w, s, kdf).codes == w.codes
  {
    hide SessionRuns.Reachable, CodeRuns.Reachable, TablesInv, Codes.Apply, HasSlot, Codes.Enabled, Next;
    OneCodeCall(w, s, kdf);
    CodesClock(w, s);
    if CodeEvents(w, s) != [] {
      IssueMakes(w.codes, CodeEvents(w, s)[0]);
    }
  }

  // --- Login codes -----------------------------------------------------------------------------------------------

  function OtpKey(c: ClientId, email: string): Codes.Key {
    Codes.Key(OtpIdentifier(c, email), Codes.LoginOtp)
  }

  /** A guess at the code with this key gets as far as the code. */
  predicate GuessesAt(w: World, e: Request, k: Codes.Key) {
    e.OtpVerify? && OtpKey(e.clientId, e.email) == k && Admits(w, e) && e.clientId != "" && e.clientId in w.clients
  }

  predicate AsksAt(w: World, e: Request, k: Codes.Key) {
    e.OtpRequest? && OtpKey(e.clientId, e.email) == k && Admits(w, e) && e.clientId != "" && e.clientId in w.clients
  }

  /** No newer code is asked for with this key, and no guess is right. */
  ghost predicate LeavesCode(w: World, evs: seq<Request>, k: Codes.Key, code: string, kdf: Kdf)
    decreases |evs|
  {
    evs == [] ||
    (!AsksAt(w, evs[0], k) && (GuessesAt(w, evs[0], k) ==> evs[0].code != code) && LeavesCode(Next(w, evs[0], kdf), evs[1..], k, code, kdf))
  }

  /** The guesses that come before the code expires. */
  ghost function Misses(w: World, evs: seq<Request>, k: Codes.Key, expiresAt: Time, kdf: Kdf): nat
    decreases |evs|
  {
    if evs == [] then 0
    else One(GuessesAt(w, evs[0], k) && evs[0].at <= expiresAt) + Misses(Next(w, evs[0], kdf), evs[1..], k, expiresAt, kdf)
  }

  lemma RequestMisses(w: World, e: Request, k: Codes.Key, s: Codes.Slot, kdf: Kdf)
    requires WorldOk(w) && Enabled(w, e) && k.purpose.LoginOtp? && HasSlot(w.codes, k, s)
    requires !AsksAt(w, e, k) && (GuessesAt(w, e, k) ==> e.code != s.secret)
    requires GuessesAt(w, e, k) && e.at <= s.expiresAt ==> s.attempts < 4
    ensures HasSlot(Next(w, e, kdf).codes, k, if GuessesAt(w, e, k) && e.at <= s.expiresAt then s.(attempts := s.attempts + 1) else s)
  {
    hide SessionRuns.Reachable, CodeRuns.Reachable, TablesInv, Admits, Codes.Apply, HasSlot, Codes.Enabled, Next, Enabled;
    OneCodeCall(w, e, kdf);
    if GuessesAt(w, e, k) {
      CodesClock(w, e);
      GuessReplies(w.codes, k, s, e.code, e.at);
    } else if CodeEvents(w, e) != [] {
      CallSpares(w.codes, CodeEvents(w, e)[0], k, s);
    }
  }

  lemma {:induction false} CodeStays(w: World, evs: seq<Request>, k: Codes.Key, s: Codes.Slot, kdf: Kdf)
    requires WorldOk(w) && ValidRun(w, evs, kdf) && k.purpose.LoginOtp? && HasSlot(w.codes, k, s)
    requires LeavesCode(w, evs, k, s.secret, kdf) && s.attempts + Misses(w, evs, k, s.expiresAt, kdf) <= 4
    ensures HasSlot(Final(w, evs, kdf).codes, k, s.(attempts := s.attempts + Misses(w, evs, k, s.expiresAt, kdf)))
    decreases |evs|
  {
    hide WorldOk, Enabled, Next, HasSlot, AsksAt, GuessesAt;
    if evs == [] {
    } else {
      StepKeepsOk(w, evs[0], kdf);
      RequestMisses(w, evs[0], k, s, kdf) by { IsVerify(w, evs[0], k); }
      var s' := if GuessesAt(w, evs[0], k) && evs[0].at <= s.expiresAt then s.(attempts := s.attempts + 1) else s;
      CodeStays(Next(w, evs[0], kdf), evs[1..], k, s', kdf);
    }
  }

  lemma IsVerify(w: World, e: Request, k: Codes.Key)
    ensures GuessesAt(w, e, k) ==> e.OtpVerify?
  {
  }

  /** From asking for a login code to using it: whatever requests come in between, so long as none asks for a newer code
      with the same key, none guesses right, and no more than four guess wrong in time, the right code signs in the
      user of the address, or meets a disabled account, if and only if it comes within ten minutes; and a wrong one
      is told to be the last exactly if four were wrong before. */
  lemma OtpThenVerify(w: World, q: Request, evs: seq<Request>, v: Request, kdf: Kdf)
    requires WorldOk(w) && Enabled(w, q) && q.OtpRequest? && ReplyTo(w, q, kdf) == Done
    requires ValidRun(Next(w, q, kdf), evs, kdf) && LeavesCode(Next(w, q, kdf), evs, OtpKey(q.clientId, q.email), q.code, kdf)
    requires Misses(Next(w, q, kdf), evs, OtpKey(q.clientId, q.email), q.at + 10 * MINUTE, kdf) <= 4
    requires v.OtpVerify? && Enabled(Final(Next(w, q, kdf), evs, kdf), v) && v.clientId == q.clientId && v.email == q.email
    requires GuessesAt(Final(Next(w, q, kdf), evs, kdf), v, OtpKey(q.clientId, q.email))
    ensures ReplyTo(Final(Next(w, q, kdf), evs, kdf), v, kdf) ==
            if q.at + 10 * MINUTE < v.at then Denied(InvalidCode)
            else if v.code == q.code then
              TokensFor(Final(Next(w, q, kdf), evs, kdf), OtpUser(Final(Next(w, q, kdf), evs, kdf), v), v.clientId, v.sid, v.raw)
            else if Misses(Next(w, q, kdf), evs, OtpKey(q.clientId, q.email), q.at + 10 * MINUTE, kdf) == 4 then Denied(TooManyAttempts)
            else Denied(InvalidCode)
  {
    hide WorldOk, Enabled, Next, Final, ValidRun, HasSlot, Admits, Codes.Apply, Misses, LeavesCode, OtpUser, OtpKey;
    var n, w', k := Next(w, q, kdf), Final(Next(w, q, kdf), evs, kdf), OtpKey(q.clientId, q.email);
    var s := Codes.Slot(q.id, q.code, 0, q.at + 10 * MINUTE);
    CodeSends(w, q, kdf);
    StepKeepsOk(w, q, kdf);
    CodeStays(n, evs, k, s, kdf) by { assert k.purpose.LoginOtp? by { KeyIsOtp(q.clientId, q.email); } }
    RunKeepsOk(n, evs, kdf);
    CodesClock(w', v);
    GuessReplies(w'.codes, k, s.(attempts := Misses(n, evs, k, s.expiresAt, kdf)), v.code, v.at);
    GuessIsAtKey(v);
  }

  lemma KeyIsOtp(c: ClientId, email: string)
    ensures OtpKey(c, email).purpose.LoginOtp?
  {
  }

  lemma GuessIsAtKey(v: Request)
    requires v.OtpVerify?
    ensures OtpGuess(v) == Codes.Guess(OtpKey(v.clientId, v.email), v.code, v.at)
  {
  }

  lemma CodeSends(w: World, q: Request, kdf: Kdf)
    requires WorldOk(w) && Enabled(w, q) && q.OtpRequest? && ReplyTo(w, q, kdf) == Done
    ensures HasSlot(Next(w, q, kdf).codes, OtpKey(q.clientId, q.email), Codes.Slot(q.id, q.code, 0, q.at + 10 * MINUTE))
  {
    hide SessionRuns.Reachable, CodeRuns.Reachable, TablesInv, Codes.Apply, HasSlot, Codes.Enabled, Next, Admits;
    OneCodeCall(w, q, kdf);
    CodesClock(w, q);
    IssueMakes(w.codes, CodeEvents(w, q)[0]);
  }
}
