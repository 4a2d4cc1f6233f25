/** While the second factor is on, no session lives that did not pass it, except the one that turned it on. */
module SecondFactor {
  import opened Domain
  import opened Machine
  import opened Invariants
  import opened Justification

  /** The session spared when the user last turned the second factor on. */
  function Kept(tr: seq<Effect>, userID: int): int {
    if tr == [] then 0
    else if tr[|tr| - 1].EnableTOTP? && tr[|tr| - 1].userID == userID then tr[|tr| - 1].keep
    else Kept(tr[..|tr| - 1], userID)
  }

  /** An unrevoked session of a user with the second factor on. */
  ghost predicate Exposed(w: World, sid: int) {
    && sid in w.db.sessions && w.db.sessions[sid].revokedAt.None?
    && w.db.sessions[sid].userID in w.db.users && w.db.users[w.db.sessions[sid].userID].totpEnabled
  }

  lemma {:induction false} Covered(cfg: Config, t0: Time, tr: seq<Effect>, sid: int) returns (i: nat)
    requires cfg.Valid() && Legal(cfg, Start(t0), tr) && Exposed(Run(cfg, Start(t0), tr), sid)
    ensures
      var s := Run(cfg, Start(t0), tr).db.sessions[sid];
      s.id == sid && (sid == Kept(tr, s.userID) || (Created(cfg, t0, tr, i, s) && tr[i].proof.ByCode?))
  {
    hide Apply, Sound;
    var last := |tr| - 1;
    var init, e := tr[..last], tr[last];
    var before, after := Run(cfg, Start(t0), init), Run(cfg, Start(t0), tr);
    i := last;
    Reachable(cfg, t0, init);
    RowFollows(cfg, before, e, sid);
    UserFollows(cfg, before, e, after.db.sessions[sid].userID);
    if sid in before.db.sessions {
      assert SessionRow(cfg, before, sid);
      hide Apply, Enabled;
      if Exposed(before, sid) {
        i := Covered(cfg, t0, init, sid);
        assert i < last ==> init[..i] == tr[..i];
      }
    } else {
      hide Apply;
    }
  }

  /** Turning the second factor off leaves at most the kept session unrevoked. */
  lemma DisableSparesOne(cfg: Config, w: World, e: Effect, sid: int)
    requires cfg.Valid() && Sound(cfg, w) && Enabled(cfg, w, e) && e.DisableTOTP?
    requires sid in Apply(cfg, w, e).db.sessions && Apply(cfg, w, e).db.sessions[sid].userID == e.userID
    requires Apply(cfg, w, e).db.sessions[sid].revokedAt.None?
    ensures sid == e.keep
  {
    RowFollows(cfg, w, e, sid);
  }
}
