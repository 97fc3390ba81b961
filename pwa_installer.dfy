/** The install prompt of the web app (app/components/PWAInstaller.tsx): the
    two state fields `deferredPrompt` and `showInstallButton` driven by the
    browser's `beforeinstallprompt` and `appinstalled` events and by the
    Install and Later buttons; and the notification shown once permission
    is granted. Browser APIs are replaced by their outcomes. */
module PwaInstaller {
  import opened Wrappers

  /** The deferred `beforeinstallprompt` event, identified by a number. */
  datatype PromptEvent = PromptEvent(id: nat)

  /** The user's answer to the install prompt. */
  datatype Choice = Accepted | Dismissed

  datatype InstallState = InstallState(deferredPrompt: Option<PromptEvent>, showInstallButton: bool)

  datatype InstallEvent =
    | BeforeInstallPrompt(prompt: PromptEvent)
    | AppInstalled
    | InstallClick(choice: Choice)
    | LaterClick

  /** Both fields start empty: no prompt and no button. */
  const Initial: InstallState := InstallState(None, false)

  /** The button is only on screen while a prompt is kept to be shown. */
  predicate Consistent(s: InstallState)
  {
    s.showInstallButton ==> s.deferredPrompt.Some?
  }

  /** One handler run. */
  function Next(s: InstallState, ev: InstallEvent): (t: InstallState)
    // the prompt event is stored and the button shown
    ensures ev.BeforeInstallPrompt? ==> t.deferredPrompt == Some(ev.prompt) && t.showInstallButton
    // installation hides the button and drops the prompt
    ensures ev.AppInstalled? ==> t == Initial
    // without a stored prompt an install click does nothing
    ensures ev.InstallClick? && s.deferredPrompt.None? ==> t == s
    // with one, the prompt is used up whatever the user chose
    ensures ev.InstallClick? && s.deferredPrompt.Some? ==> t == Initial
    // Later hides the button and keeps the prompt for another time
    ensures ev.LaterClick? ==> !t.showInstallButton && t.deferredPrompt == s.deferredPrompt
    ensures Consistent(s) ==> Consistent(t)
  {
    match ev
    case BeforeInstallPrompt(e) => InstallState(Some(e), true)
    case AppInstalled => InstallState(None, false)
    case InstallClick(_) => if s.deferredPrompt.None? then s else InstallState(None, false)
    case LaterClick => s.(showInstallButton := false)
  }

  /** The prompt that an install click shows to the user, if any. */
  function Prompted(s: InstallState, ev: InstallEvent): (p: Option<PromptEvent>)
    ensures p.Some? <==> ev.InstallClick? && s.deferredPrompt.Some?
    ensures p.Some? ==> p == s.deferredPrompt
  {
    if ev.InstallClick? then s.deferredPrompt else None
  }

  /** The state after a sequence of events. */
  function Replay(s: InstallState, evs: seq<InstallEvent>): InstallState
    decreases |evs|
  {
    if evs == [] then s else Replay(Next(s, evs[0]), evs[1..])
  }

  /** Whatever the events, the button is never shown without a prompt to use. */
  lemma {:induction false} ReplayConsistent(s: InstallState, evs: seq<InstallEvent>)
    requires Consistent(s)
    ensures Consistent(Replay(s, evs))
    decreases |evs|
  {
    if evs != [] {
      ReplayConsistent(Next(s, evs[0]), evs[1..]);
    }
  }

  /** A prompt is only clicked away once: a second install click does nothing. */
  lemma InstallClickTwice(s: InstallState, c1: Choice, c2: Choice)
    ensures Replay(s, [InstallClick(c1), InstallClick(c2)]) == Next(s, InstallClick(c1))
  {
    var evs := [InstallClick(c1), InstallClick(c2)];
    var t := Next(s, InstallClick(c1));
    assert evs[1..] == [InstallClick(c2)] && evs[1..][1..] == [];
    assert Replay(s, evs) == Replay(t, [InstallClick(c2)]);
    assert Replay(t, [InstallClick(c2)]) == Replay(Next(t, InstallClick(c2)), []);
  }

  /** The component with its two state fields. */
  class Installer {
    var deferredPrompt: Option<PromptEvent>
    var showInstallButton: bool

    function State(): InstallState
      reads this
    {
      InstallState(deferredPrompt, showInstallButton)
    }

    constructor ()
      ensures State() == Initial
    {
      deferredPrompt := None;
      showInstallButton := false;
    }

    /** `handleBeforeInstallPrompt`: the browser's own prompt is suppressed
        and the event kept. */
    method OnBeforeInstallPrompt(e: PromptEvent)
      modifies this
      ensures State() == Next(old(State()), BeforeInstallPrompt(e))
    {
      deferredPrompt := Some(e);
      showInstallButton := true;
    }

    /** The `appinstalled` listener. */
    method OnAppInstalled()
      modifies this
      ensures State() == Next(old(State()), AppInstalled)
    {
      showInstallButton := false;
      deferredPrompt := None;
    }

    /** `handleInstallClick`: shows the kept prompt, waits for the user's
        choice (an input here), then clears both fields. */
    method OnInstallClick(choice: Choice) returns (shown: Option<PromptEvent>)
      modifies this
      ensures State() == Next(old(State()), InstallClick(choice))
      ensures shown == Prompted(old(State()), InstallClick(choice))
    {
      if deferredPrompt.None? {
        return None;
      }
      shown := deferredPrompt;
      deferredPrompt := None;
      showInstallButton := false;
    }

    /** The Later button. */
    method OnLaterClick()
      modifies this
      ensures State() == Next(old(State()), LaterClick)
    {
      showInstallButton := false;
    }
  }

  /** The answer of `Notification.requestPermission()`. */
  datatype Permission = Granted | Denied | DefaultPermission

  datatype Notification = Notification(title: string, body: string, icon: string)

  /** `requestNotificationPermission`: without the Notification API nothing
      is asked; a notification is created only when permission is granted. */
  function PermissionNotification(hasNotificationApi: bool, permission: Permission): (n: Option<Notification>)
    ensures n.Some? <==> hasNotificationApi && permission == Granted
    ensures n.Some? ==> n.value.title == "Drone Control Station" && n.value.icon == "/icon-192x192.png"
  {
    if hasNotificationApi && permission == Granted
    then Some(Notification("Drone Control Station", "Notifications enabled for drone telemetry updates", "/icon-192x192.png"))
    else None
  }
}
