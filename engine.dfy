/**
 * The pet engine: it owns one nullable snapshot, installs new snapshots on
 * creation and on load, and sends every action through a single commit
 * that re-derives emotion, health state and stage and hands the result to
 * storage.
 */
module Engine {
  import opened Types
  import opened Rules
  import opened Actions

  /** The engine's snapshot after an action: nothing happens without a pet. */
  function AfterAction(current: Option<PotatoData>, a: Action): (r: Option<PotatoData>)
    ensures r.None? <==> current.None?
    ensures r.Some? ==> Consistent(r.value)
  {
    match current
    case None => None
    case Some(p) => Some(Step(p, a))
  }

  class PotatoEngine {
    /** The canonical in-memory snapshot; `None` until created or loaded. */
    var potato: Option<PotatoData>
    var isLoading: bool
    /** The last snapshot handed to storage during this session. */
    ghost var saved: Option<PotatoData>

    /**
     * Every pet the engine holds has derived fields that agree with the
     * rules, and storage was last given the snapshot the engine holds.
     */
    ghost predicate Valid()
      reads this
    {
      && (potato.Some? ==> Consistent(potato.value))
      && saved == potato
    }

    constructor ()
      ensures potato == None && isLoading && saved == None
      ensures Valid()
    {
      potato := None;
      isLoading := true;
      saved := None;
    }

    /**
     * Loads a stored snapshot (`None` when storage holds none or the read
     * failed) with catch-up decay, and ends the loading phase. The stored
     * stage is kept, so consistency needs a consistently staged snapshot.
     */
    method LoadPotato(stored: Option<PotatoData>, now: int)
      modifies this
      ensures !isLoading
      ensures stored.None? ==> potato == old(potato) && saved == old(saved)
      ensures stored.Some? ==> potato == Some(Loaded(stored.value, now)) && saved == potato
      ensures old(Valid()) && stored.None? ==> Valid()
      ensures stored.Some? && stored.value.stage == Stage(stored.value.progress.totalCred) ==> Valid()
    {
      if stored.Some? {
        var updated := Loaded(stored.value, now);
        potato := Some(updated);
        saved := potato;
      }
      isLoading := false;
    }

    /** Replaces the current pet with a fresh default one. */
    method CreatePotato(name: Option<string>, id: string, now: int)
      modifies this
      ensures potato == Some(NewPotato(name, id, now))
      ensures isLoading == old(isLoading)
      ensures Valid()
    {
      var newPotato := NewPotato(name, id, now);
      NewPotatoConsistent(name, id, now);
      potato := Some(newPotato);
      saved := potato;
    }

    /** Applies a record update and re-derives; a no-op without a pet. */
    method UpdatePotato(updater: PotatoData -> PotatoData)
      modifies this
      ensures potato == (if old(potato).None? then None else Some(Rederive(updater(old(potato).value))))
      ensures isLoading == old(isLoading)
      ensures old(potato).None? ==> saved == old(saved)
      ensures old(Valid()) ==> Valid()
      ensures potato.Some? ==> Valid()
    {
      if potato.Some? {
        var updated := Rederive(updater(potato.value));
        potato := Some(updated);
        saved := potato;
      }
    }

    method Tick()
      modifies this
      ensures potato == AfterAction(old(potato), Action.Tick)
      ensures isLoading == old(isLoading)
      ensures old(Valid()) ==> Valid()
      ensures potato.Some? ==> Valid()
    {
      UpdatePotato(p => Ticked(p));
    }

    method Feed(credAmount: real, now: int)
      modifies this
      ensures potato == AfterAction(old(potato), Action.Feed(credAmount, now))
      ensures isLoading == old(isLoading)
      ensures old(Valid()) ==> Valid()
      ensures potato.Some? ==> Valid()
    {
      UpdatePotato(p => Fed(p, credAmount, now));
    }

    method Play(now: int)
      modifies this
      ensures potato == AfterAction(old(potato), Action.Play(now))
      ensures isLoading == old(isLoading)
      ensures old(Valid()) ==> Valid()
      ensures potato.Some? ==> Valid()
    {
      UpdatePotato(p => Played(p, now));
    }

    method Rest(now: int)
      modifies this
      ensures potato == AfterAction(old(potato), Action.Rest(now))
      ensures isLoading == old(isLoading)
      ensures old(Valid()) ==> Valid()
      ensures potato.Some? ==> Valid()
    {
      UpdatePotato(p => Rested(p, now));
    }

    method Rename(name: string)
      modifies this
      ensures potato == AfterAction(old(potato), Action.Rename(name))
      ensures isLoading == old(isLoading)
      ensures old(Valid()) ==> Valid()
      ensures potato.Some? ==> Valid()
    {
      UpdatePotato(p => Renamed(p, name));
    }

    method SetAccessory(accessory: Option<Accessory>)
      modifies this
      ensures potato == AfterAction(old(potato), Action.SetAccessory(accessory))
      ensures isLoading == old(isLoading)
      ensures old(Valid()) ==> Valid()
      ensures potato.Some? ==> Valid()
    {
      UpdatePotato(p => Accessorized(p, accessory));
    }

    method ToggleTheme()
      modifies this
      ensures potato == AfterAction(old(potato), Action.ToggleTheme)
      ensures isLoading == old(isLoading)
      ensures old(Valid()) ==> Valid()
      ensures potato.Some? ==> Valid()
    {
      UpdatePotato(p => ThemeToggled(p));
    }

    /** A purchase feeds the pet, then commits the Cred and first-purchase flag. */
    method OnPurchase(credEarned: real, now: int)
      modifies this
      ensures potato == AfterAction(old(potato), Action.Purchase(credEarned, now))
      ensures isLoading == old(isLoading)
      ensures old(Valid()) ==> Valid()
      ensures potato.Some? ==> Valid()
    {
      Feed(credEarned, now);
      UpdatePotato(p => Credited(p, credEarned));
    }

    method OnReferral()
      modifies this
      ensures potato == AfterAction(old(potato), Action.Referral)
      ensures isLoading == old(isLoading)
      ensures old(Valid()) ==> Valid()
      ensures potato.Some? ==> Valid()
    {
      UpdatePotato(p => Referred(p));
    }

    method SyncProgress(totalCred: real, oxo: real)
      modifies this
      ensures potato == AfterAction(old(potato), Action.Sync(totalCred, oxo))
      ensures isLoading == old(isLoading)
      ensures old(Valid()) ==> Valid()
      ensures potato.Some? ==> Valid()
    {
      UpdatePotato(p => Synced(p, totalCred, oxo));
    }
  }
}
