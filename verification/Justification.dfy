/** Every session ever created was earned, and what earned it. */
module Justification {
  import opened Domain
  import opened Machine
  import opened Invariants

  /** Label j of the run accepted the password that challenge cid stands for. */
  ghost predicate PasswordAccepted(cfg: Config, t0: Time, tr: seq<Effect>, j: nat, cid: string, userID: int, expiresAt: Time)
    requires Legal(cfg, Start(t0), tr)
  {
    && j < |tr| && tr[j].IssueChallenge? && tr[j].id == cid && tr[j].userID == userID
    && tr[j].startedAt + cfg.challengeTTL == expiresAt
    && Legal(cfg, Start(t0), tr[..j])
    && PasswordChecked(cfg, Run(cfg, Start(t0), tr[..j]), userID, tr[j].password, Match)
  }

  lemma {:induction false} ChallengeOrigin(cfg: Config, t0: Time, tr: seq<Effect>, cid: string) returns (j: nat)
    requires cfg.Valid() && Legal(cfg, Start(t0), tr) && cid in Run(cfg, Start(t0), tr).challenges
    ensures
      var c := Run(cfg, Start(t0), tr).challenges[cid];
      PasswordAccepted(cfg, t0, tr, j, cid, c.userID, c.expiresAt)
  {
    var last := |tr| - 1;
    var init, e := tr[..last], tr[last];
    Reachable(cfg, t0, init);
    ChallengeFollows(cfg, Run(cfg, Start(t0), init), e, cid);
    if e.IssueChallenge? && e.id == cid {
      j := last;
    } else {
      hide Apply, Enabled;
      j := ChallengeOrigin(cfg, t0, init, cid);
      assert init[..j] == tr[..j];
    }
  }

  /** A redeemed challenge is gone for good, so no later login can redeem it again. */
  lemma {:induction false} RedeemedOnce(cfg: Config, t0: Time, tr: seq<Effect>, i: nat, cid: string)
    requires cfg.Valid() && Legal(cfg, Start(t0), tr) && i < |tr| && Redeems(tr[i], cid)
    ensures cid in Run(cfg, Start(t0), tr).spent && cid !in Run(cfg, Start(t0), tr).challenges
    ensures forall k | 0 <= k < |tr| && Redeems(tr[k], cid) :: k == i
    decreases |tr|
  {
    hide Apply;
    var last := |tr| - 1;
    var init, e := tr[..last], tr[last];
    var before := Run(cfg, Start(t0), init);
    Reachable(cfg, t0, init);
    ChallengeFollows(cfg, before, e, cid);
    if i < last {
      RedeemedOnce(cfg, t0, init, i, cid);
    } else {
      forall k | 0 <= k < last && Redeems(tr[k], cid) ensures false {
        RedeemedOnce(cfg, t0, init, k, cid);
      }
    }
  }

  /** The login label that created a stored session. */
  ghost predicate Created(cfg: Config, t0: Time, tr: seq<Effect>, i: nat, s: Session)
    requires Legal(cfg, Start(t0), tr)
  {
    && i < |tr| && tr[i].Login? && tr[i].userID == s.userID && tr[i].tokenHash == s.tokenHash
    && Legal(cfg, Start(t0), tr[..i]) && Run(cfg, Start(t0), tr[..i]).db.nextSessionID == s.id
  }

  lemma {:induction false} SessionOrigin(cfg: Config, t0: Time, tr: seq<Effect>, sid: int) returns (i: nat)
    requires cfg.Valid() && Legal(cfg, Start(t0), tr) && sid in Run(cfg, Start(t0), tr).db.sessions
    ensures Created(cfg, t0, tr, i, Run(cfg, Start(t0), tr).db.sessions[sid])
  {
    hide Apply, Enabled, Moved;
    var last := |tr| - 1;
    var init, e := tr[..last], tr[last];
    var before := Run(cfg, Start(t0), init);
    Reachable(cfg, t0, init);
    RowFollows(cfg, before, e, sid);
    if sid in before.db.sessions {
      i := SessionOrigin(cfg, t0, init, sid);
      assert init[..i] == tr[..i];
    } else {
      i := last;
    }
  }

  /** The state in which label i of the run happened. */
  ghost function Before(cfg: Config, t0: Time, tr: seq<Effect>, i: nat): World
    requires Legal(cfg, Start(t0), tr) && i <= |tr|
  {
    LegalPrefix(cfg, Start(t0), tr, i);
    Run(cfg, Start(t0), tr[..i])
  }

  /** With the second factor off, the call checked the password of an unlocked row. */
  ghost predicate EarnedByPassword(cfg: Config, w: World, e: Effect) {
    && e.Login? && e.proof.ByPassword?
    && PasswordChecked(cfg, w, e.userID, e.proof.password, Match)
    && !w.db.users[e.userID].totpEnabled
  }

  /**
   * With the second factor on, the call found the user unlocked, verified a code against the secret then stored,
   * and redeemed a challenge whose password check (label j) was less than challengeTTL earlier.
   */
  ghost predicate EarnedByCode(cfg: Config, t0: Time, tr: seq<Effect>, i: nat, j: nat)
    requires cfg.Valid() && Legal(cfg, Start(t0), tr)
  {
    && j < i < |tr| && tr[i].Login? && tr[i].proof.ByCode?
    && var w, e := Before(cfg, t0, tr, i), tr[i];
       && e.userID in w.db.users
       && var u := w.db.users[e.userID];
          && u.totpEnabled && !u.IsLocked(e.proof.checkedAt) && cfg.CodeMatches(u, e.proof.code, e.proof.checkedAt)
          && tr[j].IssueChallenge? && tr[j].id == e.proof.id && tr[j].userID == e.userID
          && PasswordChecked(cfg, Before(cfg, t0, tr, j), e.userID, tr[j].password, Match)
          && Before(cfg, t0, tr, j).db.users[e.userID].totpEnabled
          && tr[j].startedAt <= e.proof.foundAt < tr[j].startedAt + cfg.challengeTTL
  }

  lemma LoginEarned(cfg: Config, t0: Time, tr: seq<Effect>, i: nat) returns (j: nat)
    requires cfg.Valid() && Legal(cfg, Start(t0), tr) && i < |tr| && tr[i].Login?
    ensures if tr[i].proof.ByPassword? then EarnedByPassword(cfg, Before(cfg, t0, tr, i), tr[i])
            else EarnedByCode(cfg, t0, tr, i, j)
  {
    LegalPrefix(cfg, Start(t0), tr, i);
    j := 0;
    if tr[i].proof.ByCode? {
      j := ChallengeOrigin(cfg, t0, tr[..i], tr[i].proof.id);
      LegalPrefix(cfg, Start(t0), tr, j);
      assert tr[..i][..j] == tr[..j];
    }
  }

  /** Every session row of every reachable state was earned by one login, and no challenge pays for two. */
  lemma EverySessionEarned(cfg: Config, t0: Time, tr: seq<Effect>, sid: int) returns (i: nat, j: nat)
    requires cfg.Valid() && Legal(cfg, Start(t0), tr) && sid in Run(cfg, Start(t0), tr).db.sessions
    ensures Created(cfg, t0, tr, i, Run(cfg, Start(t0), tr).db.sessions[sid])
    ensures if tr[i].proof.ByPassword? then EarnedByPassword(cfg, Before(cfg, t0, tr, i), tr[i])
            else EarnedByCode(cfg, t0, tr, i, j)
    ensures tr[i].proof.ByCode? ==> forall k | 0 <= k < |tr| && Redeems(tr[k], tr[i].proof.id) :: k == i
  {
    hide Apply, Enabled;
    i := SessionOrigin(cfg, t0, tr, sid);
    j := LoginEarned(cfg, t0, tr, i);
    if tr[i].proof.ByCode? {
      RedeemedOnce(cfg, t0, tr, i, tr[i].proof.id);
    }
  }
}
