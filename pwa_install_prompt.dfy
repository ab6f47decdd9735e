/**
 * The install banner: shown once the browser offers installation, unless
 * the app is installed or the banner was dismissed; a dismissal is stored
 * with its time and honoured for 24 hours. The clock, `parseInt` and the
 * outcome of the browser's install prompt are parameters; React's effects
 * are run explicitly, in the order React runs them.
 */
module PwaInstallPrompt {
  import opened Wrappers
  import opened Text
  import opened Browser

  const DismissedKey := "pwa-prompt-dismissed"

  /** 24 hours in milliseconds. */
  const Day := 24 * 60 * 60 * 1000

  /** `parseInt`: `None` stands for `NaN`. */
  type IntParser = string -> Option<int>

  /** A stored dismissal younger than 24 hours (an unreadable one counts as old). */
  predicate RecentlyDismissed(stored: Option<string>, now: int, parseInt: IntParser)
  {
    Truthy(stored) && parseInt(stored.value).Some? && now - parseInt(stored.value).value < Day
  }

  /** What the PWA hook returns: whether the browser is online, the app installed, installation offered. */
  datatype Hook = Hook(isOnline: bool, isInstalled: bool, canInstall: bool)

  /** A property of the hook's result read by name; a name the hook does not return is `undefined` (`None`). */
  function HookProperty(h: Hook, name: string): (v: Option<bool>)
    ensures v.Some? <==> name in {"isOnline", "isInstalled", "canInstall"}
  {
    if name == "isOnline" then Some(h.isOnline)
    else if name == "isInstalled" then Some(h.isInstalled)
    else if name == "canInstall" then Some(h.canInstall)
    else None
  }

  /** A truthy boolean property. */
  predicate Holds(v: Option<bool>)
  {
    v == Some(true)
  }

  /**
   * What the banner sees as written: it asks the hook for
   * `isInstallPromptAvailable` and `isPWAInstalled`, names the hook does not
   * return, so both read as `undefined` whatever the browser's state.
   */
  function SeenAsWritten(h: Hook): (seen: (bool, bool))
    ensures seen == (false, false)
  {
    (Holds(HookProperty(h, "isInstallPromptAvailable")), Holds(HookProperty(h, "isPWAInstalled")))
  }

  /** What the banner sees when it asks for the names the hook returns. */
  function Seen(h: Hook): (seen: (bool, bool))
    ensures seen == (h.canInstall, h.isInstalled)
  {
    (Holds(HookProperty(h, "canInstall")), Holds(HookProperty(h, "isInstalled")))
  }

  /** The banner is rendered only while it is to be shown and the app is not installed. */
  function Rendered(showBanner: bool, installed: bool): (shown: bool)
    ensures shown ==> !installed
    ensures shown <==> showBanner && !installed
  {
    !(!showBanner || installed)
  }

  /** The show effect on the banner flag, given the `dismissed` its render saw. */
  function ShowStep(showBanner: bool, dismissed: bool, available: bool, installed: bool): (show: bool)
    ensures show <==> showBanner || (available && !installed && !dismissed)
  {
    if available && !installed && !dismissed then true else showBanner
  }

  /**
   * The banner flag after the first render's effects as written: the show
   * effect runs first, seeing `dismissed` still false; the mount check may
   * then set `dismissed`, and the show effect runs again, which can only
   * show the banner.
   */
  function ShownAfterMountAsWritten(available: bool, installed: bool, stored: Option<string>, now: int,
                                    parseInt: IntParser): bool
  {
    var first := ShowStep(false, false, available, installed);
    var dismissed := RecentlyDismissed(stored, now, parseInt);
    ShowStep(first, dismissed, available, installed)
  }

  /** The banner flag after the first render when the stored dismissal is read before the banner is shown. */
  function ShownAfterMount(available: bool, installed: bool, stored: Option<string>, now: int,
                           parseInt: IntParser): bool
  {
    ShowStep(false, RecentlyDismissed(stored, now, parseInt), available, installed)
  }

  /** Read first, a recent dismissal always keeps the banner hidden; otherwise it shows whenever installation is offered. */
  lemma MountHonoursDismissal(available: bool, installed: bool, stored: Option<string>, now: int, parseInt: IntParser)
    ensures ShownAfterMount(available, installed, stored, now, parseInt)
      <==> available && !installed && !RecentlyDismissed(stored, now, parseInt)
  {
  }

  /** As written, the dismissal makes no difference at mount: the banner shows whenever installation is offered. */
  lemma MountIgnoresDismissalAsWritten(available: bool, installed: bool, stored: Option<string>, now: int,
                                       parseInt: IntParser)
    ensures ShownAfterMountAsWritten(available, installed, stored, now, parseInt) <==> available && !installed
  {
  }

  class InstallPrompt {
    var showBanner: bool
    var dismissed: bool
    const storage: LocalStorage

    constructor (storage: LocalStorage)
      ensures !showBanner && !dismissed && this.storage == storage
    {
      showBanner, dismissed := false, false;
      this.storage := storage;
    }

    /** The first effect: show the banner once installation is offered, unless installed or dismissed. */
    method ShowEffect(available: bool, installed: bool)
      modifies this`showBanner
      ensures showBanner == ShowStep(old(showBanner), dismissed, available, installed)
    {
      if available && !installed && !dismissed {
        showBanner := true;
      }
    }

    /** `handleInstall`: a completed install hides the banner; a declined one leaves it. */
    method HandleInstall(accepted: bool)
      modifies this`showBanner
      ensures showBanner == (old(showBanner) && !accepted)
    {
      if accepted {
        showBanner := false;
      }
    }

    /** `handleDismiss`: hide the banner and remember the dismissal with the current time. */
    method HandleDismiss(now: int)
      modifies this`showBanner, this`dismissed, storage
      ensures dismissed && !showBanner
      ensures storage.items == old(storage.items)[DismissedKey := IntToString(now)]
    {
      dismissed := true;
      showBanner := false;
      storage.SetItem(DismissedKey, IntToString(now));
    }

    /** The mount effect: a recent dismissal is honoured; any other stored one is removed. */
    method MountCheck(now: int, parseInt: IntParser)
      modifies this`dismissed, storage
      ensures var stored := old(storage.GetItem(DismissedKey));
        dismissed == (old(dismissed) || RecentlyDismissed(stored, now, parseInt))
        && storage.items == (if Truthy(stored) && !RecentlyDismissed(stored, now, parseInt)
          then old(storage.items) - {DismissedKey} else old(storage.items))
    {
      var stored := storage.GetItem(DismissedKey);
      if Truthy(stored) {
        var time := parseInt(stored.value);
        if time.Some? && now - time.value < Day {
          dismissed := true;
        } else {
          storage.RemoveItem(DismissedKey);
        }
      }
    }

    /** The first render's effects, in the order React runs them. */
    method MountAsWritten(available: bool, installed: bool, now: int, parseInt: IntParser)
      requires !showBanner && !dismissed
      modifies this`showBanner, this`dismissed, storage
      ensures showBanner == ShownAfterMountAsWritten(available, installed, old(storage.GetItem(DismissedKey)), now, parseInt)
      ensures dismissed == RecentlyDismissed(old(storage.GetItem(DismissedKey)), now, parseInt)
    {
      ShowEffect(available, installed);
      MountCheck(now, parseInt);
      ShowEffect(available, installed);
    }

    /** The first render with the mount check moved before the show effect. */
    method Mount(available: bool, installed: bool, now: int, parseInt: IntParser)
      requires !showBanner && !dismissed
      modifies this`showBanner, this`dismissed, storage
      ensures showBanner == ShownAfterMount(available, installed, old(storage.GetItem(DismissedKey)), now, parseInt)
      ensures dismissed == RecentlyDismissed(old(storage.GetItem(DismissedKey)), now, parseInt)
    {
      MountCheck(now, parseInt);
      ShowEffect(available, installed);
    }
  }

  /**
   * A dismissal stored at time `t`, read back by `parseInt`, is recent
   * exactly until 24 hours after it (and at any earlier clock reading).
   */
  lemma DismissalWindow(t: nat, now: int, parseInt: IntParser)
    requires parseInt(IntToString(t)) == Some(t as int)
    ensures RecentlyDismissed(Some(IntToString(t)), now, parseInt) <==> now < t + Day
  {
    assert IntToString(t) == NatToString(t);
    assert |NatToString(t)| > 0 by {
      ParseNatToString(t);
    }
  }

  /**
   * A dismissal at `t`, with installation offered at mount within the next
   * 24 hours: the banner shows again as written, and stays hidden when the
   * dismissal is read first.
   */
  lemma DismissalIgnoredAtMount(t: nat, now: int, parseInt: IntParser)
    requires parseInt(IntToString(t)) == Some(t as int) && t <= now < t + Day
    ensures ShownAfterMountAsWritten(true, false, Some(IntToString(t)), now, parseInt)
    ensures !ShownAfterMount(true, false, Some(IntToString(t)), now, parseInt)
  {
    DismissalWindow(t, now, parseInt);
  }

  /** As written, the banner is never shown, whatever the browser offers and whatever is stored. */
  lemma NeverShownAsWritten(h: Hook, stored: Option<string>, now: int, parseInt: IntParser, showBanner: bool, dismissed: bool)
    ensures var seen := SeenAsWritten(h);
      !ShownAfterMountAsWritten(seen.0, seen.1, stored, now, parseInt)
      && ShowStep(showBanner, dismissed, seen.0, seen.1) == showBanner
  {
  }

  /** Reading the hook's own names, the banner is offered at mount exactly when installable, not installed and not recently dismissed. */
  lemma ShownWhenInstallable(h: Hook, stored: Option<string>, now: int, parseInt: IntParser)
    ensures var seen := Seen(h);
      (ShownAfterMount(seen.0, seen.1, stored, now, parseInt)
      <==> h.canInstall && !h.isInstalled && !RecentlyDismissed(stored, now, parseInt))
  {
    MountHonoursDismissal(h.canInstall, h.isInstalled, stored, now, parseInt);
  }
}
