/**
 volume/limiter.go: the disk limit on its way to the quota library and the usage on its way back. A call into the
 library, the loading of it included, is one call of the machine.
 */
module Limiting {
  import opened GoBase
  import opened Machine
  import opened Quota

  class Limiter {
    const host: Host

    constructor (host: Host)
      ensures this.host == host
    {
      this.host := host;
    }

    /** Zero means no quota and makes no call; otherwise success means that size plus overhead is on record. */
    method SetQuota(volume: string, size: int) returns (ok: bool)
      requires IsUint64(size)
      modifies host
      ensures size == 0 ==> ok && host.View() == old(host.View())
      ensures size != 0 ==>
                && host.View() == Perform(old(host.View()), host.env, CommitQuota(volume, ToUint64(size + DISK_QUOTA_OVERHEAD)))
                && ok == Last(host.View()).ok
      ensures host.disk.folders == old(host.disk.folders)
      ensures host.disk.quotas ==
                if ok && size != 0 then old(host.disk.quotas)[volume := ToUint64(size + DISK_QUOTA_OVERHEAD)] else old(host.disk.quotas)
    {
      if size == 0 {
        return true;
      }
      var e := host.Do(CommitQuota(volume, ToUint64(size + DISK_QUOTA_OVERHEAD)));
      ok := e.ok;
    }

    /** The bytes used under the volume's quota: what the library reports, 0 if there is no quota or on failure. */
    method GetQuotaUsed(volume: string) returns (used: int, ok: bool)
      modifies host
      ensures host.View() == Perform(old(host.View()), host.env, QueryQuota(volume)) && host.disk == old(host.disk)
      ensures ok == Last(host.View()).ok && used == if ok then Last(host.View()).number else 0
      ensures IsUint64(used) && (volume !in host.disk.quotas ==> used == 0)
    {
      var e := host.Do(QueryQuota(volume));
      if !e.ok {
        return 0, false;
      }
      used, ok := e.number, true;
    }
  }

  // ---------------------------------------------------- the quota calls of the machine are the library's

  /** A quota call of the machine that succeeds exactly if the library returns 0 leaves the library's record. */
  lemma CommitIsSetQuota(d: Disk, c: Com, answers: Answers, volume: string, limit: int, e: Event)
    requires WellFormed(c) && c.table == d.quotas && e.call == CommitQuota(volume, limit)
    requires e.ok == (SetQuotaRun(c, answers, volume, limit).1 == 0)
    ensures Apply(d, e).quotas == SetQuotaRun(c, answers, volume, limit).0.table
  {
    hide SetQuotaRun;
    SetQuotaBalanced(c, answers, volume, limit);
  }

  /** A quota query of the machine that answers as the library does replies what the library returns. */
  lemma QueryIsGetQuotaUsed(d: Disk, c: Com, answers: Answers, volume: string, a: Answer)
    requires WellFormed(c) && c.table == d.quotas
    requires var (_, hr, used) := GetQuotaUsedRun(c, answers, volume); a.ok == (hr == 0) && a.number == used
    ensures var (c', hr, used) := GetQuotaUsedRun(c, answers, volume);
            var e := Reply(d, QueryQuota(volume), a);
            && e.ok == (hr == 0) && e.found == (volume in c.table) && e.number == used
            && Apply(d, e).quotas == c'.table
  {
    hide GetQuotaUsedRun;
    GetQuotaUsedBalanced(c, answers, volume);
  }
}
