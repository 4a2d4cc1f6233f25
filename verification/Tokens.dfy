/** One session, found by its token hash, across a label. */
module Tokens {
  import opened Domain
  import opened Machine
  import opened Invariants

  ghost function SessionOf(w: World, hash: string): Option<Session> {
    match w.db.SessionByHash(hash)
    case None => None
    case Some(id) => Some(w.db.sessions[id])
  }

  /** A resolve attempt with this token would succeed at t. */
  ghost predicate Answers(w: World, hash: string, t: Time) {
    SessionOf(w, hash).Some? && SessionOf(w, hash).value.IsActive(t)
  }

  ghost function SessionAfter(cfg: Config, w: World, e: Effect, hash: string): Option<Session>
    requires Enabled(cfg, w, e)
  {
    if e.Login? && e.tokenHash == hash then
      Some(NewSession(cfg, e.userID, hash, e.issuedAt, e.info).(id := w.db.nextSessionID))
    else match SessionOf(w, hash)
      case None => None
      case Some(s) => if e.Purge? && !s.IsActive(w.clock) then None else Some(Moved(cfg, w, e, s))
  }

  lemma SessionFollows(cfg: Config, w: World, e: Effect, hash: string)
    requires cfg.Valid() && Sound(cfg, w) && Enabled(cfg, w, e)
    ensures SessionOf(Apply(cfg, w, e), hash) == SessionAfter(cfg, w, e, hash)
  {
    hide Apply, Enabled, Moved;
    KeepsSessions(cfg, w, e);
    var w' := Apply(cfg, w, e);
    RowFollows(cfg, w, e, w.db.nextSessionID);
    match w.db.SessionByHash(hash) {
      case Some(id) => RowFollows(cfg, w, e, id);
      case None =>
    }
    match w'.db.SessionByHash(hash) {
      case Some(id) => RowFollows(cfg, w, e, id);
      case None =>
    }
  }
}
