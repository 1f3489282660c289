/**
 `get_access_token` as one caller runs it (sau/tokens.py), and the steps of TokenRefresh it takes.
 */
module Tokens {
  import opened Options
  import opened TokenRefresh

  class TokenStore {
    var row: Option<Row>

    /**
     `answer` is the refresh callback's grant, or nothing if it raises; `stampedAt` is the clock
     when the row's expiry is set.
     */
    method GetAccessToken(canRefresh: bool, now: int, answer: Option<Grant>, stampedAt: int)
      returns (r: Result<string, string>)
      modifies this
      ensures r == Err("no stored credentials") <==> old(row).None?
      ensures old(row).Some? ==>
                var was := old(row).value;
                var due := canRefresh && was.expiresAt.Some? && was.expiresAt.value - now < 600;
                var stored := was.refresh.Some? && was.refresh.value != "";
                && (!due ==> r == Ok(was.access) && row == old(row))
                && (due && !stored ==> r == Err("token expired and no refresh token stored") && row == old(row))
                && (due && stored && answer.None? ==> r == Err("refresh failed") && row == old(row))
                && (due && stored && answer.Some? ==>
                      && r == Ok(answer.value.access)
                      && row == Some(Row(answer.value.access, Some(answer.value.refresh),
                                         Some(stampedAt + answer.value.lifetime))))
      ensures old(row).None? ==> row.None?
    {
      if row.None? {
        return Err("no stored credentials");
      }
      if !canRefresh || !Expiring(row.value, now) {
        return Ok(row.value.access);
      }
      if row.value.refresh.None? || row.value.refresh.value == "" {
        return Err("token expired and no refresh token stored");
      }
      if answer.None? {
        return Err("refresh failed");
      }
      var granted := row.value.(access := answer.value.access, refresh := Some(answer.value.refresh));
      row := Some(granted.(expiresAt := Some(stampedAt + answer.value.lifetime)));
      return Ok(answer.value.access);
    }
  }

  /**
   A refresh by the lock's holder that nothing interrupts does to the row what the method does,
   and leaves the row with the token the provider takes next.
   */
  lemma UndisturbedRefresh(s: State, c: nat, grant: Grant, stampedAt: int)
    requires c in s.callers && s.callers[c] == Caller(true, Locked) && s.holder == Some(c) && StoredIsCurrent(s)
    requires Expiring(s.row.value, s.clock) && grant.refresh !in s.issued && grant.refresh != "" && s.clock <= stampedAt
    ensures Enabled(s, Check(c))
    ensures var s1 := Apply(s, Check(c));
            && Enabled(s1, Exchange(c, grant))
            && var s2 := Apply(s1, Exchange(c, grant));
            && Enabled(s2, Pass(stampedAt))
            && var s3 := Apply(s2, Pass(stampedAt));
            && Enabled(s3, SetFields(c))
            && var s4 := Apply(s3, SetFields(c));
            && Enabled(s4, Commit(c))
            && var s5 := Apply(s4, Commit(c));
            && s5.holder.None? && StoredIsCurrent(s5)
            && s5.row == Some(Row(grant.access, Some(grant.refresh), Some(stampedAt + grant.lifetime)))
            && s5.callers[c].pc == Done(grant.access, Some(stampedAt + grant.lifetime), stampedAt, true)
  {
  }

  /** A caller that need not refresh returns the stored token, and one that cannot fails; the row stays as it is. */
  lemma UndisturbedCheck(s: State, c: nat)
    requires c in s.callers && s.callers[c].pc.Locked? && s.holder == Some(c)
    ensures Enabled(s, Check(c))
    ensures var s' := Apply(s, Check(c));
            && s'.row == s.row && s'.clock == s.clock
            && match s.row
               case None => s'.callers[c].pc == Failed && s'.holder.None?
               case Some(row) =>
                 var due := s.callers[c].canRefresh && row.expiresAt.Some? && row.expiresAt.value - s.clock < 600;
                 if !due then
                   && s'.callers[c].pc == Done(row.access, row.expiresAt, s.clock, false)
                   && s'.holder.None?
                 else if row.refresh.None? || row.refresh.value == "" then s'.callers[c].pc == Failed && s'.holder.None?
                 else s'.callers[c].pc == Asking && s'.holder == Some(c)
  {
  }
}
