/**
 * The visitor's display settings: whether effects are on, the background's
 * speed and density, and reduced motion. Each is read from `localStorage`
 * at start, written back whenever it changes, and turning reduced motion on
 * switches effects off. A change of effects is broadcast as a
 * `sunCursorSet` event carrying a boolean, which the cursor applies.
 * `Number(…)` is a parameter; React's effect scheduling is modelled by
 * running, inside each setter, the effects that the change triggers.
 */
module SettingsContext {
  import opened Wrappers
  import opened Browser

  const EffectsKey := "effectsOn"
  const SpeedKey := "bgSpeed"
  const DensityKey := "bgDensity"
  const ReduceKey := "reduceMotion"

  /** The initial `effectsOn`: on unless "0" is stored. */
  function InitialEffectsOn(stored: Option<string>): (on: bool)
    ensures !on <==> stored == Some("0")
  {
    stored != Some("0")
  }

  /** The initial speed or density: the stored number, or 1 when nothing (or "") is stored. */
  function InitialScale(stored: Option<string>, number: string -> real): (v: real)
    ensures !Truthy(stored) ==> v == number("1")
    ensures Truthy(stored) ==> v == number(stored.value)
  {
    number(OrElse(stored, "1"))
  }

  /** The initial `reduceMotion`: the stored flag when there is one, the media preference otherwise. */
  function InitialReduceMotion(stored: Option<string>, prefersReduced: bool): (on: bool)
    ensures stored.Some? ==> (on <==> stored.value == "1")
    ensures stored.None? ==> on == prefersReduced
  {
    if stored.Some? then stored.value == "1" else prefersReduced
  }

  /** The stored form of a flag. */
  function Flag(on: bool): (s: string)
    ensures s == "1" || s == "0"
  {
    if on then "1" else "0"
  }

  /** A stored flag reads back as the value that was stored, for both settings and whatever the preference. */
  lemma FlagRoundTrip(on: bool, prefersReduced: bool)
    ensures InitialEffectsOn(Some(Flag(on))) == on
    ensures InitialReduceMotion(Some(Flag(on)), prefersReduced) == on
  {
  }

  class Settings {
    var effectsOn: bool
    var bgSpeed: real
    var bgDensity: real
    var reduceMotion: bool
    /** The `sunCursorSet` details sent so far, oldest first. */
    var broadcasts: seq<bool>
    const storage: LocalStorage
    /** `String(n)` for the stored speed and density. */
    const show: real -> string

    /** The settled state: reduced motion keeps effects off, and storage holds every setting. */
    predicate Valid()
      reads this, storage
    {
      (reduceMotion ==> !effectsOn)
      && EffectsKey in storage.items && storage.items[EffectsKey] == Flag(effectsOn)
      && ReduceKey in storage.items && storage.items[ReduceKey] == Flag(reduceMotion)
      && SpeedKey in storage.items && storage.items[SpeedKey] == show(bgSpeed)
      && DensityKey in storage.items && storage.items[DensityKey] == show(bgDensity)
    }

    /** The effect on `effectsOn`: store it and broadcast it. */
    method PersistEffects()
      modifies this`broadcasts, storage
      ensures storage.items == old(storage.items)[EffectsKey := Flag(effectsOn)]
      ensures broadcasts == old(broadcasts) + [effectsOn]
    {
      storage.SetItem(EffectsKey, Flag(effectsOn));
      broadcasts := broadcasts + [effectsOn];
    }

    /** Provider start: the initial values from storage and the preference, then every mount effect. */
    constructor (storage: LocalStorage, prefersReduced: bool, number: string -> real, show: real -> string)
      modifies storage
      ensures Valid() && this.storage == storage && this.show == show
      ensures reduceMotion == InitialReduceMotion(old(storage.GetItem(ReduceKey)), prefersReduced)
      ensures effectsOn == (InitialEffectsOn(old(storage.GetItem(EffectsKey))) && !reduceMotion)
      ensures bgSpeed == InitialScale(old(storage.GetItem(SpeedKey)), number)
      ensures bgDensity == InitialScale(old(storage.GetItem(DensityKey)), number)
      ensures |broadcasts| >= 1 && broadcasts[|broadcasts| - 1] == effectsOn
    {
      this.storage := storage;
      this.show := show;
      effectsOn := InitialEffectsOn(storage.GetItem(EffectsKey));
      bgSpeed := InitialScale(storage.GetItem(SpeedKey), number);
      bgDensity := InitialScale(storage.GetItem(DensityKey), number);
      reduceMotion := InitialReduceMotion(storage.GetItem(ReduceKey), prefersReduced);
      broadcasts := [];
      new;
      MountEffects();
    }

    /**
     * The effects of the first render, in order: store and broadcast
     * `effectsOn`, store the speed, the density and `reduceMotion`, then switch
     * effects off (storing and broadcasting again) under reduced motion.
     */
    method MountEffects()
      modifies this`effectsOn, this`broadcasts, storage
      ensures Valid()
      ensures effectsOn == (old(effectsOn) && !reduceMotion)
      ensures |broadcasts| >= 1 && broadcasts[|broadcasts| - 1] == effectsOn
    {
      PersistEffects();
      storage.SetItem(SpeedKey, show(bgSpeed));
      storage.SetItem(DensityKey, show(bgDensity));
      storage.SetItem(ReduceKey, Flag(reduceMotion));
      if reduceMotion && effectsOn {
        effectsOn := false;
        PersistEffects();
      }
    }

    /**
     * `setEffectsOn`: a new value is stored and broadcast, and under reduced
     * motion it is switched straight back off; the same value again changes
     * nothing (React skips the effects).
     */
    method SetEffectsOn(on: bool)
      requires Valid()
      modifies this`effectsOn, this`broadcasts, storage
      ensures Valid()
      ensures effectsOn == (on && !reduceMotion)
      ensures on == old(effectsOn) ==> broadcasts == old(broadcasts)
      ensures on != old(effectsOn) ==>
        broadcasts == old(broadcasts) + [on] + (if on && reduceMotion then [false] else [])
    {
      if on == effectsOn {
        return;
      }
      effectsOn := on;
      PersistEffects();
      storage.SetItem(ReduceKey, Flag(reduceMotion));
      if reduceMotion && effectsOn {
        effectsOn := false;
        PersistEffects();
      }
    }

    /** `setReduceMotion`: stored; turning it on while effects are on switches them off and broadcasts that. */
    method SetReduceMotion(on: bool)
      requires Valid()
      modifies this`reduceMotion, this`effectsOn, this`broadcasts, storage
      ensures Valid()
      ensures reduceMotion == on
      ensures effectsOn == (old(effectsOn) && !on)
      ensures broadcasts == old(broadcasts) + (if on && old(effectsOn) then [false] else [])
    {
      reduceMotion := on;
      storage.SetItem(ReduceKey, Flag(reduceMotion));
      if reduceMotion && effectsOn {
        effectsOn := false;
        PersistEffects();
      }
    }

    /** `setBgSpeed`: stored as `String(n)`. */
    method SetBgSpeed(v: real)
      requires Valid()
      modifies this`bgSpeed, storage
      ensures Valid() && bgSpeed == v
      ensures storage.items == old(storage.items)[SpeedKey := show(v)]
    {
      bgSpeed := v;
      storage.SetItem(SpeedKey, show(v));
    }

    /** `setBgDensity`: stored as `String(n)`. */
    method SetBgDensity(v: real)
      requires Valid()
      modifies this`bgDensity, storage
      ensures Valid() && bgDensity == v
      ensures storage.items == old(storage.items)[DensityKey := show(v)]
    {
      bgDensity := v;
      storage.SetItem(DensityKey, show(v));
    }
  }
}
