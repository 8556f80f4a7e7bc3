/** The episode ledger: which stretches of an asset's life are explained, and how rows are masked. */
module Ledgers {
  import opened Timelines

  datatype EpisodeState = AlarmEpisode | ChangeNotFault | Intervention

  /** `end` is None while the episode is open. */
  datatype MaybeTs = Open | At(ts: int)

  datatype Episode = Episode(asset: string, start: int, end: MaybeTs, state: EpisodeState, note: string)

  /** 9999-12-31T00:00:00+00:00 in seconds: where an open window ends. */
  const FAR_FUTURE := 253402214400

  predicate IsFault(e: Episode) { e.state == AlarmEpisode || e.state == Intervention }

  function WindowEnd(e: Episode): int { if e.end.At? then e.end.ts else FAR_FUTURE }

  predicate Covers(e: Episode, ts: int) { e.start <= ts <= WindowEnd(e) }

  /** The episodes of one asset, or of all the others, in ledger order. */
  function Pick(eps: seq<Episode>, asset: string, mine: bool): seq<Episode> {
    if eps == [] then []
    else if (eps[0].asset == asset) == mine then [eps[0]] + Pick(eps[1..], asset, mine)
    else Pick(eps[1..], asset, mine)
  }

  function Own(eps: seq<Episode>, asset: string): seq<Episode> { Pick(eps, asset, true) }

  function Others(eps: seq<Episode>, asset: string): seq<Episode> { Pick(eps, asset, false) }

  function Faults(eps: seq<Episode>): seq<Episode> {
    if eps == [] then [] else (if IsFault(eps[0]) then [eps[0]] else []) + Faults(eps[1..])
  }

  lemma {:induction false} FaultsMembers(eps: seq<Episode>, e: Episode)
    ensures e in Faults(eps) <==> e in eps && (e.state == AlarmEpisode || e.state == Intervention)
  {
    if eps != [] {
      FaultsMembers(eps[1..], e);
      assert e in eps <==> e == eps[0] || e in eps[1..];
    }
  }

  /** Rows outside one window. */
  function Outside(rows: seq<int>, e: Episode): seq<int> {
    if rows == [] then [] else (if Covers(e, rows[0]) then [] else [rows[0]]) + Outside(rows[1..], e)
  }

  /** Rows no window covers. */
  function Masked(rows: seq<int>, eps: seq<Episode>): seq<int>
    decreases |eps|
  {
    if eps == [] then rows else Masked(Outside(rows, eps[0]), eps[1..])
  }

  function RemoveFirst(eps: seq<Episode>, e: Episode): seq<Episode> {
    if eps == [] then [] else if eps[0] == e then eps[1..] else [eps[0]] + RemoveFirst(eps[1..], e)
  }

  // ---- adding and removing, seen by one asset and by the others --------------------------

  lemma {:induction false} PickAdd(eps: seq<Episode>, e: Episode, asset: string, mine: bool)
    ensures Pick(eps + [e], asset, mine) == Pick(eps, asset, mine) + if (e.asset == asset) == mine then [e] else []
  {
    if eps == [] {
      assert eps + [e] == [e];
    } else {
      assert (eps + [e])[1..] == eps[1..] + [e];
      PickAdd(eps[1..], e, asset, mine);
    }
  }

  lemma {:induction false} OwnAdd(eps: seq<Episode>, e: Episode, asset: string)
    ensures Own(eps + [e], asset) == Own(eps, asset) + (if e.asset == asset then [e] else [])
    ensures Others(eps + [e], asset) == Others(eps, asset) + (if e.asset == asset then [] else [e])
  {
    PickAdd(eps, e, asset, true);
    PickAdd(eps, e, asset, false);
  }

  lemma {:induction false} PickRemove(eps: seq<Episode>, e: Episode, asset: string, mine: bool)
    ensures Pick(RemoveFirst(eps, e), asset, mine)
         == if (e.asset == asset) == mine then RemoveFirst(Pick(eps, asset, mine), e) else Pick(eps, asset, mine)
  {
    if eps != [] && eps[0] != e {
      var t := eps[1..];
      PickRemove(t, e, asset, mine);
      assert RemoveFirst(eps, e)[1..] == RemoveFirst(t, e);
      if (eps[0].asset == asset) == mine {
        assert Pick(eps, asset, mine)[1..] == Pick(t, asset, mine);
      }
    } else if eps != [] && (e.asset == asset) == mine {
      assert Pick(eps, asset, mine)[1..] == Pick(eps[1..], asset, mine);
    }
  }

  lemma {:induction false} OwnRemove(eps: seq<Episode>, e: Episode, asset: string)
    ensures Own(RemoveFirst(eps, e), asset) == if e.asset == asset then RemoveFirst(Own(eps, asset), e) else Own(eps, asset)
    ensures Others(RemoveFirst(eps, e), asset)
         == if e.asset == asset then Others(eps, asset) else RemoveFirst(Others(eps, asset), e)
  {
    PickRemove(eps, e, asset, true);
    PickRemove(eps, e, asset, false);
  }

  lemma {:induction false} PickMembers(eps: seq<Episode>, asset: string, mine: bool, e: Episode)
    ensures e in Pick(eps, asset, mine) <==> e in eps && (e.asset == asset) == mine
  {
    if eps != [] {
      PickMembers(eps[1..], asset, mine, e);
      assert e in eps <==> e == eps[0] || e in eps[1..];
    }
  }

  lemma {:induction false} PickOfPick(eps: seq<Episode>, asset: string, mine: bool)
    ensures Pick(Pick(eps, asset, true), asset, mine) == if mine then Pick(eps, asset, true) else []
  {
    if eps != [] {
      PickOfPick(eps[1..], asset, mine);
      if eps[0].asset == asset {
        assert Pick(eps, asset, true)[1..] == Pick(eps[1..], asset, true);
      }
    }
  }

  lemma {:induction false} LedgerSize(eps: seq<Episode>, asset: string)
    ensures |eps| == |Own(eps, asset)| + |Others(eps, asset)|
  {
    if eps != [] {
      LedgerSize(eps[1..], asset);
    }
  }

  lemma {:induction false} FaultsConcat(a: seq<Episode>, b: seq<Episode>)
    ensures Faults(a + b) == Faults(a) + Faults(b)
  {
    if a == [] {
      assert a + b == b;
    } else {
      assert (a + b)[1..] == a[1..] + b;
      FaultsConcat(a[1..], b);
      var head := if IsFault(a[0]) then [a[0]] else [];
      assert head + (Faults(a[1..]) + Faults(b)) == (head + Faults(a[1..])) + Faults(b);
    }
  }

  // ---- masking -----------------------------------------------------------------------------

  lemma {:induction false} OutsideShrinks(rows: seq<int>, e: Episode)
    ensures |Outside(rows, e)| <= |rows|
    ensures (exists i :: 0 <= i < |rows| && Covers(e, rows[i])) ==> |Outside(rows, e)| < |rows|
  {
    if rows != [] {
      OutsideShrinks(rows[1..], e);
      if i :| 0 < i < |rows| && Covers(e, rows[i]) {
        assert Covers(e, rows[1..][i - 1]);
      }
    }
  }

  lemma {:induction false} MaskedShrinks(rows: seq<int>, eps: seq<Episode>)
    ensures |Masked(rows, eps)| <= |rows|
    decreases |eps|
  {
    if eps != [] {
      OutsideShrinks(rows, eps[0]);
      MaskedShrinks(Outside(rows, eps[0]), eps[1..]);
    }
  }

  lemma {:induction false} MaskedConcat(rows: seq<int>, a: seq<Episode>, b: seq<Episode>)
    ensures Masked(rows, a + b) == Masked(Masked(rows, a), b)
    decreases |a|
  {
    if a == [] {
      assert a + b == b;
    } else {
      assert (a + b)[1..] == a[1..] + b;
      MaskedConcat(Outside(rows, a[0]), a[1..], b);
    }
  }

  /** A row survives exactly when no window covers it. */
  lemma {:induction false} MaskedIsUncovered(rows: seq<int>, eps: seq<Episode>, t: int)
    ensures t in Masked(rows, eps) <==> t in rows && forall k :: 0 <= k < |eps| ==> !Covers(eps[k], t)
    decreases |eps|
  {
    if eps != [] {
      MaskedIsUncovered(Outside(rows, eps[0]), eps[1..], t);
      OutsideMembers(rows, eps[0], t);
      assert forall k :: 1 <= k < |eps| ==> eps[k] == eps[1..][k - 1];
      assert forall k :: 0 <= k < |eps[1..]| ==> eps[1..][k] == eps[k + 1];
    }
  }

  lemma {:induction false} OutsideMembers(rows: seq<int>, e: Episode, t: int)
    ensures t in Outside(rows, e) <==> t in rows && !Covers(e, t)
  {
    if rows != [] {
      OutsideMembers(rows[1..], e, t);
      assert rows == [rows[0]] + rows[1..];
    }
  }

  lemma {:induction false} OutsideRising(rows: seq<int>, e: Episode)
    requires Rising(rows)
    ensures Rising(Outside(rows, e))
    ensures Outside(rows, e) != [] ==> Outside(rows, e)[0] >= rows[0]
  {
    if rows != [] {
      OutsideRising(rows[1..], e);
      if !Covers(e, rows[0]) {
        assert Outside(rows, e)[1..] == Outside(rows[1..], e);
      } else {
        assert Outside(rows, e) == Outside(rows[1..], e);
      }
    }
  }

  lemma {:induction false} MaskedRising(rows: seq<int>, eps: seq<Episode>)
    requires Rising(rows)
    ensures Rising(Masked(rows, eps))
    decreases |eps|
  {
    if eps != [] {
      OutsideRising(rows, eps[0]);
      MaskedRising(Outside(rows, eps[0]), eps[1..]);
    }
  }

  // ---- the ledger ---------------------------------------------------------------------------

  /** The in-memory list and its mirror in the state store. */
  class EpisodeLedger {
    var episodes: seq<Episode>
    var stored: seq<Episode>

    ghost predicate Valid()
      reads this
    {
      stored == episodes
    }

    constructor (initial: seq<Episode>)
      ensures Valid() && episodes == initial
    {
      episodes, stored := initial, initial;
    }

    method Add(e: Episode)
      requires Valid()
      modifies this
      ensures Valid() && episodes == old(episodes) + [e]
    {
      episodes := episodes + [e];
      stored := stored + [e];
    }

    /** Drops one value-identical episode; absent ones are an error and change nothing. */
    method Remove(e: Episode) returns (found: bool)
      requires Valid()
      modifies this
      ensures Valid() && (found <==> e in old(episodes))
      ensures episodes == RemoveFirst(old(episodes), e)
      ensures !found ==> episodes == old(episodes)
    {
      AbsentStays(episodes, e);
      if e !in episodes {
        return false;
      }
      episodes := RemoveFirst(episodes, e);
      stored := RemoveFirst(stored, e);
      return true;
    }

    /** Rows outside the asset's windows, fault windows only when asked. */
    method Mask(asset: string, rows: seq<int>, faultsOnly: bool) returns (kept: seq<int>)
      ensures kept == Masked(rows, if faultsOnly then Faults(Own(episodes, asset)) else Own(episodes, asset))
    {
      var windows := if faultsOnly then Faults(Own(episodes, asset)) else Own(episodes, asset);
      kept := rows;
      for i := 0 to |windows|
        invariant Masked(kept, windows[i..]) == Masked(rows, windows)
      {
        assert windows[i..][1..] == windows[i + 1..];
        if kept == [] {
          MaskedShrinks(kept, windows[i..]);
          return;
        }
        kept := Outside(kept, windows[i]);
      }
    }
  }

  lemma {:induction false} AbsentStays(eps: seq<Episode>, e: Episode)
    ensures e !in eps ==> RemoveFirst(eps, e) == eps
    ensures e in eps ==> |RemoveFirst(eps, e)| == |eps| - 1
  {
    if eps != [] {
      AbsentStays(eps[1..], e);
      assert eps == [eps[0]] + eps[1..];
    }
  }
}
