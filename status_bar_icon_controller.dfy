/**
 * The status-bar icon controller: the system-icon rows of the status bar
 * and of the keyguard, kept in lock-step; the notification-icon row,
 * reconciled with the active notifications; the icon blacklist; the colour
 * channels and their shared colour transition; the dark-icon protocol
 * around app transitions; the clock style and the carrier label.
 */
module StatusBarIcons {
  import opened Wrappers
  import opened Argb
  import opened ViewGroups
  import opened IconBlacklist
  import opened TintChannels
  import opened TintProtocol

  const ClockStyleDefault: int := 0
  const ClockStyleCentered: int := 1
  const ClockStyleHidden: int := 2

  /** The contents a system icon shows; its details are not modelled. */
  datatype StatusBarIcon = StatusBarIcon(id: int)

  /** A system icon's view: its slot, whether the slot is blacklisted, and its icon. */
  datatype SystemIconView = SystemIconView(slot: string, blocked: bool, icon: StatusBarIcon)

  /** The identity of a notification's icon view. */
  type IconView = int

  /** An active notification as the icon row sees it. */
  datatype Entry = Entry(icon: IconView, ambient: bool, showEvenIfUnprovisioned: bool, topLevel: bool)

  /** Ambient notifications (unless shown even when unprovisioned) and group children get no icon. */
  predicate ShowsIcon(e: Entry) {
    !(e.ambient && !e.showEvenIfUnprovisioned) && e.topLevel
  }

  /** The icons to show, in the order of the notifications. */
  function ShownIcons(es: seq<Entry>): seq<IconView> {
    if |es| == 0 then []
    else ShownIcons(es[..|es| - 1]) + (if ShowsIcon(es[|es| - 1]) then [es[|es| - 1].icon] else [])
  }

  /** The shown icons of two runs of notifications are those of the first, then those of the second. */
  lemma {:induction false} ShownIconsAppend(a: seq<Entry>, b: seq<Entry>)
    ensures ShownIcons(a + b) == ShownIcons(a) + ShownIcons(b)
    decreases |b|
  {
    if |b| == 0 {
      assert a + b == a;
    } else {
      var b' := b[..|b| - 1];
      assert (a + b)[..|a + b| - 1] == a + b';
      ShownIconsAppend(a, b');
    }
  }

  /** An icon is shown exactly when some notification that shows an icon has it. */
  lemma {:induction false} ShownIconsMembers(es: seq<Entry>, x: IconView)
    ensures x in ShownIcons(es) <==> exists i :: 0 <= i < |es| && ShowsIcon(es[i]) && es[i].icon == x
    decreases |es|
  {
    if |es| > 0 {
      var init := es[..|es| - 1];
      ShownIconsMembers(init, x);
      if x in ShownIcons(init) {
        var i :| 0 <= i < |init| && ShowsIcon(init[i]) && init[i].icon == x;
        assert es[i] == init[i];
      }
      if exists i :: 0 <= i < |es| && ShowsIcon(es[i]) && es[i].icon == x {
        var i :| 0 <= i < |es| && ShowsIcon(es[i]) && es[i].icon == x;
        if i < |init| {
          assert init[i] == es[i];
        }
      }
    }
  }

  /** The system-icon views rebuilt for a new blacklist: same slots and icons, order kept. */
  function Reblocked(views: seq<SystemIconView>, blacklist: set<string>): (r: seq<SystemIconView>)
    ensures |r| == |views|
    ensures forall i :: 0 <= i < |r| ==>
      r[i].slot == views[i].slot && r[i].icon == views[i].icon && (r[i].blocked <==> views[i].slot in blacklist)
  {
    seq(|views|, i requires 0 <= i < |views| => SystemIconView(views[i].slot, views[i].slot in blacklist, views[i].icon))
  }

  /** Which of the two clocks and the centre-clock layout are visible. */
  datatype ClockViews = ClockViews(defaultClock: bool, centeredClock: bool, centerLayout: bool)

  /**
   * The clock views after a style change: the default clock alone, the
   * centred clock with its layout, or neither; an unknown style changes
   * nothing.
   */
  function ClockViewsFor(style: int, c: ClockViews): (r: ClockViews)
    ensures style == ClockStyleDefault ==> r == ClockViews(true, false, false)
    ensures style == ClockStyleCentered ==> r == ClockViews(false, true, true)
    ensures style == ClockStyleHidden ==> r == ClockViews(false, false, false)
    ensures style !in {ClockStyleDefault, ClockStyleCentered, ClockStyleHidden} ==> r == c
  {
    if style == ClockStyleDefault then c.(centeredClock := false, centerLayout := false, defaultClock := true)
    else if style == ClockStyleCentered then c.(defaultClock := false, centerLayout := true, centeredClock := true)
    else if style == ClockStyleHidden then c.(defaultClock := false, centerLayout := false, centeredClock := false)
    else c
  }

  /** For every known style at most one clock shows, and the centred one exactly with its layout. */
  lemma ClockStyleExclusive(style: int, c: ClockViews)
    requires style in {ClockStyleDefault, ClockStyleCentered, ClockStyleHidden}
    ensures var r := ClockViewsFor(style, c);
      !(r.defaultClock && r.centeredClock) && (r.centeredClock <==> r.centerLayout)
  {
  }

  /**
   * The carrier label shows when asked to, unless hiding is forced and the
   * notification row holds at least `maxAllowedIcons` icons.
   */
  function CarrierLabelShown(show: bool, forceHide: bool, iconCount: int, maxAllowedIcons: int): (r: bool)
    ensures r ==> show
    ensures r && forceHide ==> iconCount < maxAllowedIcons
    ensures show && !forceHide ==> r
    ensures show && iconCount < maxAllowedIcons ==> r
  {
    var forceHideByNumberOfIcons := forceHide && iconCount >= maxAllowedIcons;
    show && !forceHideByNumberOfIcons
  }

  /** More notification icons never bring the label back. */
  lemma CarrierLabelMonotone(show: bool, forceHide: bool, n: int, m: int, maxAllowedIcons: int)
    requires n <= m
    ensures CarrierLabelShown(show, forceHide, m, maxAllowedIcons) ==> CarrierLabelShown(show, forceHide, n, maxAllowedIcons)
  {
  }

  class StatusBarIconController {
    /** Whether the device supports mobile data (the carrier label is tinted only then). */
    const mobileData: bool

    // the dark-icon protocol
    var darkIntensity: real
    var transitionPending: bool
    var tintChangePending: bool
    var pendingDarkIntensity: real
    var transitionDeferring: bool
    var transitionDeferringStartTime: int
    var transitionDeferringDuration: int
    /** The time the posted end of the deferring window runs at, if posted. */
    var deferringDoneAt: Option<int>
    var tintAnimation: Option<TintAnimation>

    // the colour channels and the shared colour transition
    var colors: Palette
    var colorToChange: ColorGroup
    var blendRunning: bool

    var iconBlacklist: set<string>
    const statusIcons: ViewGroup<SystemIconView>
    const statusIconsKeyguard: ViewGroup<SystemIconView>
    const notificationIcons: ViewGroup<IconView>

    var clockStyle: int
    var clocks: ClockViews
    /** Whether the notification row makes room for a centred clock. */
    var centeredClockInRow: bool
    var carrierLabelVisible: bool

    /** The dark-icon protocol's fields as one value. */
    function Tint(): TintState
      reads this`darkIntensity, this`transitionPending, this`tintChangePending,
        this`pendingDarkIntensity, this`transitionDeferring, this`transitionDeferringStartTime,
        this`transitionDeferringDuration, this`deferringDoneAt, this`tintAnimation
    {
      TintState(darkIntensity, transitionPending, tintChangePending, pendingDarkIntensity,
                transitionDeferring, transitionDeferringStartTime, transitionDeferringDuration,
                deferringDoneAt, tintAnimation)
    }

    /**
     * The two system-icon rows are distinct containers with the same
     * views, the notification row is a third one without repeats, every
     * channel has its colours, and the dark-icon protocol's invariant holds.
     */
    predicate Valid()
      reads this, statusIcons, statusIconsKeyguard, notificationIcons
    {
      && statusIcons != statusIconsKeyguard
      && statusIcons as object != notificationIcons as object
      && statusIconsKeyguard as object != notificationIcons as object
      && statusIcons.children == statusIconsKeyguard.children
      && Distinct(notificationIcons.children)
      && Complete(colors)
      && Inv(Tint())
    }

    /**
     * A controller with empty icon rows and every channel at rest on its
     * configured colour; `clocks` and `carrierLabelVisible` are the views'
     * visibility as laid out.
     */
    constructor (mobileData: bool, configured: Channel -> Color, clocks: ClockViews, carrierLabelVisible: bool)
      ensures Valid()
      ensures fresh(statusIcons) && fresh(statusIconsKeyguard) && fresh(notificationIcons)
      ensures statusIcons.children == [] && notificationIcons.children == []
      ensures Tint() == TintState(0.0, false, false, 0.0, false, 0, 0, None, None)
      ensures forall c :: colors[c] == Settled(configured(c))
      ensures colorToChange == CarrierLabelGroup && !blendRunning && iconBlacklist == {}
      ensures this.mobileData == mobileData && clockStyle == ClockStyleDefault && this.clocks == clocks
      ensures !centeredClockInRow && this.carrierLabelVisible == carrierLabelVisible
    {
      this.mobileData := mobileData;
      darkIntensity := 0.0;
      transitionPending := false;
      tintChangePending := false;
      pendingDarkIntensity := 0.0;
      transitionDeferring := false;
      transitionDeferringStartTime := 0;
      transitionDeferringDuration := 0;
      deferringDoneAt := None;
      tintAnimation := None;
      colors := SettledPalette(configured);
      colorToChange := CarrierLabelGroup;
      blendRunning := false;
      iconBlacklist := {};
      statusIcons := new ViewGroup([]);
      statusIconsKeyguard := new ViewGroup([]);
      notificationIcons := new ViewGroup([]);
      clockStyle := ClockStyleDefault;
      this.clocks := clocks;
      centeredClockInRow := false;
      this.carrierLabelVisible := carrierLabelVisible;
    }

    // ---- the dark-icon protocol ----

    /** `setIconTintInternal`: apply intensity `d`, retinting every channel towards its dark colour. */
    method SetIconTintInternal(d: real, darkColors: Channel -> Color)
      requires Complete(colors) && Unit(d)
      modifies this`darkIntensity, this`colors
      ensures darkIntensity == d
      ensures colors == Retint(old(colors), d, darkColors, mobileData)
    {
      darkIntensity := d;
      colors := Retint(colors, d, darkColors, mobileData);
    }

    /** `animateIconTint`. */
    method AnimateIconTint(target: real, delay: int, duration: int)
      modifies this`tintAnimation
      ensures Tint() == AnimateTo(old(Tint()), target, delay, duration)
    {
      tintAnimation := None;
      if darkIntensity == target {
        return;
      }
      tintAnimation := Some(TintAnimation(darkIntensity, target, delay, duration));
    }

    /** `deferIconTintChange`. */
    method DeferIconTintChange(d: real)
      modifies this`tintChangePending, this`pendingDarkIntensity
      ensures Tint() == DeferTo(old(Tint()), d)
    {
      if tintChangePending && d == pendingDarkIntensity {
        return;
      }
      tintChangePending := true;
      pendingDarkIntensity := d;
    }

    /**
     * `setIconsDark` at time `now`; `darkColors` are the channels' dark
     * colours. Only the immediate path retints the channels.
     */
    method SetIconsDark(dark: bool, animate: bool, now: int, darkColors: Channel -> Color)
      requires Valid()
      modifies this`darkIntensity, this`colors, this`tintChangePending, this`pendingDarkIntensity,
        this`tintAnimation
      ensures Valid()
      ensures Tint() == IconsDark(old(Tint()), dark, animate, now)
      ensures colors == if animate then old(colors) else Retint(old(colors), Intensity(dark), darkColors, mobileData)
    {
      InvPreserved(Tint(), dark, animate, now, 0, 0, 0.0);
      var d := if dark then 1.0 else 0.0;
      if !animate {
        SetIconTintInternal(d, darkColors);
      } else if transitionPending {
        DeferIconTintChange(d);
      } else if transitionDeferring {
        AnimateIconTint(d, Max0(transitionDeferringStartTime - now), transitionDeferringDuration);
      } else {
        AnimateIconTint(d, 0, DefaultTintAnimationDuration);
      }
    }

    /** `appTransitionPending`. */
    method AppTransitionPending()
      requires Valid()
      modifies this`transitionPending
      ensures Valid()
      ensures Tint() == TransitionPending(old(Tint()))
    {
      InvPreserved(Tint(), false, false, 0, 0, 0, 0.0);
      transitionPending := true;
    }

    /** `appTransitionCancelled`. */
    method AppTransitionCancelled()
      requires Valid()
      modifies this`transitionPending, this`tintChangePending, this`tintAnimation
      ensures Valid()
      ensures Tint() == TransitionCancelled(old(Tint()))
    {
      InvPreserved(Tint(), false, false, 0, 0, 0, 0.0);
      if transitionPending && tintChangePending {
        tintChangePending := false;
        AnimateIconTint(pendingDarkIntensity, 0, DefaultTintAnimationDuration);
      }
      transitionPending := false;
    }

    /**
     * `appTransitionStarting` at time `now` for a transition starting at
     * `startTime` and lasting `duration` ms (an animation duration is never
     * negative).
     */
    method AppTransitionStarting(startTime: int, duration: int, now: int)
      requires Valid() && duration >= 0
      modifies this`transitionPending, this`tintChangePending, this`tintAnimation,
        this`transitionDeferring, this`transitionDeferringStartTime,
        this`transitionDeferringDuration, this`deferringDoneAt
      ensures Valid()
      ensures Tint() == TransitionStarting(old(Tint()), startTime, duration, now)
    {
      InvPreserved(Tint(), false, false, now, startTime, duration, 0.0);
      if transitionPending && tintChangePending {
        tintChangePending := false;
        AnimateIconTint(pendingDarkIntensity, Max0(startTime - now), duration);
      } else if transitionPending {
        transitionDeferring := true;
        transitionDeferringStartTime := startTime;
        transitionDeferringDuration := duration;
        deferringDoneAt := Some(startTime);
      }
      transitionPending := false;
    }

    /** The handler at time `now`: the end of the deferring window runs once it is due. */
    method RunHandler(now: int)
      requires Valid()
      modifies this`transitionDeferring, this`deferringDoneAt
      ensures Valid()
      ensures Tint() == HandlerRun(old(Tint()), now)
    {
      InvPreserved(Tint(), false, false, now, 0, 0, 0.0);
      if deferringDoneAt.Some? && deferringDoneAt.value <= now {
        transitionDeferring := false;
        deferringDoneAt := None;
      }
    }

    /** A frame of the tint animation: the animated intensity `value` is applied. */
    method TintAnimationFrame(value: real, darkColors: Channel -> Color)
      requires Valid() && tintAnimation.Some? && Animated(tintAnimation.value, value)
      modifies this`darkIntensity, this`colors
      ensures Valid()
      ensures Tint() == AnimationFrame(old(Tint()), value)
      ensures colors == Retint(old(colors), value, darkColors, mobileData)
    {
      InvPreserved(Tint(), false, false, 0, 0, 0, value);
      SetIconTintInternal(value, darkColors);
    }

    /** The last frame of the tint animation; the animator is then done. */
    method TintAnimationEnd(darkColors: Channel -> Color)
      requires Valid() && tintAnimation.Some?
      modifies this`darkIntensity, this`colors, this`tintAnimation
      ensures Valid()
      ensures Tint() == AnimationEnd(old(Tint()))
      ensures colors == Retint(old(colors), darkIntensity, darkColors, mobileData)
    {
      InvPreserved(Tint(), false, false, 0, 0, 0, 0.0);
      SetIconTintInternal(tintAnimation.value.to, darkColors);
      tintAnimation := None;
    }

    // ---- the colour channels ----

    /**
     * New configured colours for a group: settled at once, or, animated,
     * the group is tagged and the shared colour transition (re)started.
     */
    method ChangeColors(g: ColorGroup, updates: map<Channel, Color>, animate: bool)
      requires Complete(colors)
      modifies this`colors, this`colorToChange, this`blendRunning
      ensures colors == SetColors(old(colors), updates, animate)
      ensures animate ==> colorToChange == g && blendRunning
      ensures !animate ==> colorToChange == old(colorToChange) && blendRunning == old(blendRunning)
    {
      colors := SetColors(colors, updates, animate);
      if animate {
        colorToChange := g;
        blendRunning := true;
      }
    }

    method UpdateCarrierLabelColor(animate: bool, color: Color)
      requires Valid()
      modifies this`colors, this`colorToChange, this`blendRunning
      ensures Valid()
      ensures colors == SetColors(old(colors), map[CarrierLabel := color], animate)
      ensures animate ==> colorToChange == CarrierLabelGroup && blendRunning
      ensures !animate ==> colorToChange == old(colorToChange) && blendRunning == old(blendRunning)
    {
      ChangeColors(CarrierLabelGroup, map[CarrierLabel := color], animate);
    }

    method UpdateBatteryColors(animate: bool, frame: Color, battery: Color, text: Color)
      requires Valid()
      modifies this`colors, this`colorToChange, this`blendRunning
      ensures Valid()
      ensures colors == SetColors(old(colors), map[BatteryFrame := frame, Battery := battery, BatteryText := text], animate)
      ensures animate ==> colorToChange == BatteryGroup && blendRunning
      ensures !animate ==> colorToChange == old(colorToChange) && blendRunning == old(blendRunning)
    {
      ChangeColors(BatteryGroup, map[BatteryFrame := frame, Battery := battery, BatteryText := text], animate);
    }

    method UpdateClockColor(animate: bool, color: Color)
      requires Valid()
      modifies this`colors, this`colorToChange, this`blendRunning
      ensures Valid()
      ensures colors == SetColors(old(colors), map[Clock := color], animate)
      ensures animate ==> colorToChange == ClockGroup && blendRunning
      ensures !animate ==> colorToChange == old(colorToChange) && blendRunning == old(blendRunning)
    {
      ChangeColors(ClockGroup, map[Clock := color], animate);
    }

    /** Animated only while the traffic indicator is updating. */
    method UpdateNetworkTrafficColors(animate: bool, isUpdating: bool, text: Color, icon: Color)
      requires Valid()
      modifies this`colors, this`colorToChange, this`blendRunning
      ensures Valid()
      ensures colors == SetColors(old(colors), map[NetworkTrafficText := text, NetworkTrafficIcon := icon],
                                  animate && isUpdating)
      ensures animate && isUpdating ==> colorToChange == NetworkTrafficGroup && blendRunning
      ensures !(animate && isUpdating) ==> colorToChange == old(colorToChange) && blendRunning == old(blendRunning)
    {
      ChangeColors(NetworkTrafficGroup, map[NetworkTrafficText := text, NetworkTrafficIcon := icon],
                   animate && isUpdating);
    }

    method UpdateStatusNetworkIconColors(animate: bool, status: Color, signal: Color, noSim: Color, airplane: Color)
      requires Valid()
      modifies this`colors, this`colorToChange, this`blendRunning
      ensures Valid()
      ensures colors == SetColors(old(colors),
        map[StatusIcon := status, NetworkSignal := signal, NoSim := noSim, AirplaneMode := airplane], animate)
      ensures animate ==> colorToChange == StatusNetworkIconGroup && blendRunning
      ensures !animate ==> colorToChange == old(colorToChange) && blendRunning == old(blendRunning)
    {
      ChangeColors(StatusNetworkIconGroup,
        map[StatusIcon := status, NetworkSignal := signal, NoSim := noSim, AirplaneMode := airplane], animate);
    }

    /** The notification-icon colour is never animated: configured and applied at once. */
    method UpdateNotificationIconColor(color: Color)
      requires Valid()
      modifies this`colors
      ensures Valid()
      ensures colors == old(colors)[NotificationIcon := old(colors)[NotificationIcon].(base := color, tint := color)]
    {
      colors := colors[NotificationIcon := colors[NotificationIcon].(base := color, tint := color)];
    }

    /** The end of the shared colour transition settles the tagged group. */
    method OnBlendEnd()
      requires Valid() && blendRunning
      modifies this`colors, this`blendRunning
      ensures Valid() && !blendRunning
      ensures colors == Settle(old(colors), colorToChange)
    {
      colors := Settle(colors, colorToChange);
      blendRunning := false;
    }

    // ---- the system icons ----

    /** `addSystemIcon`: one view per row at `viewIndex` (appended when negative). */
    method AddSystemIcon(slot: string, viewIndex: int, icon: StatusBarIcon)
      requires Valid() && viewIndex <= |statusIcons.children|
      modifies statusIcons, statusIconsKeyguard
      ensures Valid()
      ensures var v := SystemIconView(slot, slot in iconBlacklist, icon);
        statusIcons.children ==
          if viewIndex < 0 then old(statusIcons.children) + [v] else InsertAt(old(statusIcons.children), viewIndex, v)
    {
      var blocked := slot in iconBlacklist;
      statusIcons.AddView(SystemIconView(slot, blocked, icon), viewIndex);
      statusIconsKeyguard.AddView(SystemIconView(slot, blocked, icon), viewIndex);
    }

    /** `updateSystemIcon`: both views at `viewIndex` show the new icon. */
    method UpdateSystemIcon(viewIndex: int, icon: StatusBarIcon)
      requires Valid() && 0 <= viewIndex < |statusIcons.children|
      modifies statusIcons, statusIconsKeyguard
      ensures Valid()
      ensures statusIcons.children ==
        old(statusIcons.children)[viewIndex := old(statusIcons.children)[viewIndex].(icon := icon)]
    {
      var v := statusIcons.children[viewIndex].(icon := icon);
      statusIcons.SetChildAt(viewIndex, v);
      statusIconsKeyguard.SetChildAt(viewIndex, v);
    }

    /** `removeSystemIcon`. */
    method RemoveSystemIcon(viewIndex: int)
      requires Valid() && 0 <= viewIndex < |statusIcons.children|
      modifies statusIcons, statusIconsKeyguard
      ensures Valid()
      ensures statusIcons.children == RemoveAt(old(statusIcons.children), viewIndex)
    {
      statusIcons.RemoveViewAt(viewIndex);
      statusIconsKeyguard.RemoveViewAt(viewIndex);
    }

    /**
     * `onTuningChanged`: for the blacklist key, re-read the blacklist, then
     * remove every system icon from the last to the first and add them back
     * in order, so that each view is rebuilt with its new blocked flag.
     */
    method OnTuningChanged(key: string, newValue: Option<string>)
      requires Valid()
      modifies this`iconBlacklist, statusIcons, statusIconsKeyguard
      ensures Valid()
      ensures key != IconBlacklistKey ==>
        iconBlacklist == old(iconBlacklist) && statusIcons.children == old(statusIcons.children)
      ensures key == IconBlacklistKey ==>
        && iconBlacklist == Blacklist(newValue)
        && statusIcons.children == Reblocked(old(statusIcons.children), iconBlacklist)
    {
      if key != IconBlacklistKey {
        return;
      }
      iconBlacklist := GetIconBlacklist(newValue);
      var views := statusIcons.children;
      var i := |views|;
      while i > 0
        invariant 0 <= i <= |views|
        invariant Valid()
        invariant statusIcons.children == views[..i]
        invariant iconBlacklist == Blacklist(newValue)
      {
        RemoveSystemIcon(i - 1);
        i := i - 1;
      }
      while i < |views|
        invariant 0 <= i <= |views|
        invariant Valid()
        invariant statusIcons.children == Reblocked(views[..i], iconBlacklist)
        invariant iconBlacklist == Blacklist(newValue)
      {
        AddSystemIcon(views[i].slot, i, views[i].icon);
        assert views[..i + 1] == views[..i] + [views[i]];
        i := i + 1;
      }
      assert views[..i] == views;
    }

    // ---- the notification icons ----

    /**
     * `updateNotificationIcons`. Each shown icon is either not in any row
     * yet or already a child of the notification row. Afterwards the row
     * holds exactly the shown icons, in the order of the notifications.
     */
    method UpdateNotificationIcons(entries: seq<Entry>)
      requires Valid() && Distinct(ShownIcons(entries))
      modifies notificationIcons
      ensures Valid()
      ensures notificationIcons.children == ShownIcons(entries)
    {
      var toShow := FilterShown(entries);
      var toRemove := ChildrenNotShown(toShow);
      RemoveAll(toRemove, toShow);
      AddMissing(toShow);
      Resort(toShow);
    }

    /** The filter loop: the icons of the notifications that show one. */
    method FilterShown(entries: seq<Entry>) returns (toShow: seq<IconView>)
      ensures toShow == ShownIcons(entries)
    {
      toShow := [];
      var i := 0;
      while i < |entries|
        invariant 0 <= i <= |entries|
        invariant toShow == ShownIcons(entries[..i])
      {
        var ent := entries[i];
        assert entries[..i + 1][..i] == entries[..i];
        if ent.ambient && !ent.showEvenIfUnprovisioned {
        } else if !ent.topLevel {
        } else {
          toShow := toShow + [ent.icon];
        }
        i := i + 1;
      }
      assert entries[..i] == entries;
    }

    /** The children of the notification row that are not to be shown. */
    method ChildrenNotShown(toShow: seq<IconView>) returns (toRemove: seq<IconView>)
      ensures forall x :: x in toRemove <==> x in notificationIcons.children && x !in toShow
    {
      var children := notificationIcons.children;
      toRemove := [];
      var i := 0;
      while i < |children|
        invariant 0 <= i <= |children|
        invariant forall x :: x in toRemove <==> x in children[..i] && x !in toShow
      {
        var child := children[i];
        assert children[..i + 1] == children[..i] + [child];
        if child !in toShow {
          toRemove := toRemove + [child];
        }
        i := i + 1;
      }
      assert children[..i] == children;
    }

    /** The removal loop: afterwards only shown icons remain. */
    method RemoveAll(toRemove: seq<IconView>, toShow: seq<IconView>)
      requires Valid()
      requires forall x :: x in toRemove <==> x in notificationIcons.children && x !in toShow
      modifies notificationIcons
      ensures Valid()
      ensures forall x :: x in notificationIcons.children <==> x in old(notificationIcons.children) && x in toShow
    {
      var before := notificationIcons.children;
      var i := 0;
      while i < |toRemove|
        invariant 0 <= i <= |toRemove|
        invariant Valid()
        invariant notificationIcons.children == RemoveEach(before, toRemove[..i])
      {
        RemoveFirstDistinct(notificationIcons.children, toRemove[i]);
        notificationIcons.RemoveView(toRemove[i]);
        assert toRemove[..i + 1][..i] == toRemove[..i];
        i := i + 1;
      }
      assert toRemove[..i] == toRemove;
      RemoveEachMembers(before, toRemove);
    }

    /**
     * The insertion loop: every shown icon that is not a child is inserted
     * at its own index, which never exceeds the child count.
     */
    method AddMissing(toShow: seq<IconView>)
      requires Valid() && Distinct(toShow)
      requires forall x :: x in notificationIcons.children ==> x in toShow
      modifies notificationIcons
      ensures Valid()
      ensures |notificationIcons.children| == |toShow|
      ensures forall x :: x in notificationIcons.children <==> x in toShow
    {
      var i := 0;
      while i < |toShow|
        invariant 0 <= i <= |toShow|
        invariant Valid()
        invariant forall x :: x in notificationIcons.children ==> x in toShow
        invariant forall k :: 0 <= k < i ==> toShow[k] in notificationIcons.children
      {
        var v := toShow[i];
        if v !in notificationIcons.children {
          PrefixInside(toShow, i, notificationIcons.children);
          ghost var c := notificationIcons.children;
          InsertAtMembers(c, i, v);
          InsertKeepsDistinct(c, i, v);
          notificationIcons.AddView(v, i);
        }
        i := i + 1;
      }
      ghost var c := notificationIcons.children;
      forall x | x in c ensures x in toShow {
        var k :| 0 <= k < |c| && c[k] == x;
      }
      forall x | x in toShow ensures x in c {
        var k :| 0 <= k < |toShow| && toShow[k] == x;
      }
      SubsetLength(toShow, c);
      SubsetLength(c, toShow);
    }

    /**
     * The re-sorting loop over the child count: a child out of place is
     * replaced by moving the expected icon to its index.
     */
    method Resort(toShow: seq<IconView>)
      requires Valid() && Distinct(toShow)
      requires |notificationIcons.children| == |toShow|
      requires forall x :: x in notificationIcons.children <==> x in toShow
      modifies notificationIcons
      ensures Valid()
      ensures notificationIcons.children == toShow
    {
      var childCount := |notificationIcons.children|;
      var i := 0;
      while i < childCount
        invariant 0 <= i <= childCount == |toShow|
        invariant Valid()
        invariant |notificationIcons.children| == |toShow|
        invariant forall x :: x in notificationIcons.children <==> x in toShow
        invariant notificationIcons.children[..i] == toShow[..i]
      {
        PlaceAt(toShow, i);
        i := i + 1;
      }
      assert notificationIcons.children == notificationIcons.children[..i];
      assert toShow == toShow[..i];
    }

    /** One step of the re-sorting loop: the child at `i` becomes the expected icon. */
    method PlaceAt(toShow: seq<IconView>, i: nat)
      requires Valid() && Distinct(toShow) && i < |toShow|
      requires |notificationIcons.children| == |toShow|
      requires forall x :: x in notificationIcons.children <==> x in toShow
      requires notificationIcons.children[..i] == toShow[..i]
      modifies notificationIcons
      ensures Valid()
      ensures |notificationIcons.children| == |toShow|
      ensures forall x :: x in notificationIcons.children <==> x in toShow
      ensures notificationIcons.children[..i + 1] == toShow[..i + 1]
    {
      var actual := notificationIcons.children[i];
      var expected := toShow[i];
      if actual == expected {
        assert notificationIcons.children[..i + 1] == notificationIcons.children[..i] + [actual];
        assert toShow[..i + 1] == toShow[..i] + [expected];
        return;
      }
      ghost var c := notificationIcons.children;
      forall j | 0 <= j <= i
        ensures c[j] != expected
      {
        if j < i {
          assert c[j] == c[..i][j] == toShow[..i][j] == toShow[j];
        }
      }
      MoveTo(c, i, expected);
      notificationIcons.RemoveView(expected);
      notificationIcons.AddView(expected, i);
      assert notificationIcons.children[..i] == toShow[..i];
      assert notificationIcons.children[..i + 1] == notificationIcons.children[..i] + [expected];
      assert toShow[..i + 1] == toShow[..i] + [expected];
    }

    // ---- the clock and the carrier label ----

    /** `updateClockStyle`. */
    method UpdateClockStyle(style: int)
      modifies this`clockStyle, this`clocks, this`centeredClockInRow
      ensures clockStyle == style
      ensures clocks == ClockViewsFor(style, old(clocks))
      ensures centeredClockInRow <==> style == ClockStyleCentered
    {
      clockStyle := style;
      if clockStyle == ClockStyleDefault {
        clocks := clocks.(centeredClock := false, centerLayout := false, defaultClock := true);
      } else if clockStyle == ClockStyleCentered {
        clocks := clocks.(defaultClock := false, centerLayout := true, centeredClock := true);
      } else if clockStyle == ClockStyleHidden {
        clocks := clocks.(defaultClock := false, centerLayout := false, centeredClock := false);
      }
      centeredClockInRow := clockStyle == ClockStyleCentered;
    }

    /** `updateCarrierLabelVisibility`. */
    method UpdateCarrierLabelVisibility(show: bool, forceHide: bool, maxAllowedIcons: int)
      modifies this`carrierLabelVisible
      ensures carrierLabelVisible == CarrierLabelShown(show, forceHide, |notificationIcons.children|, maxAllowedIcons)
    {
      var forceHideByNumberOfIcons := false;
      if forceHide && |notificationIcons.children| >= maxAllowedIcons {
        forceHideByNumberOfIcons := true;
      }
      carrierLabelVisible := show && !forceHideByNumberOfIcons;
    }
  }

  /** Distinct icons at indices below `i`, all children, are at least `i` children. */
  lemma PrefixInside(toShow: seq<IconView>, i: nat, children: seq<IconView>)
    requires Distinct(toShow) && i <= |toShow|
    requires forall k :: 0 <= k < i ==> toShow[k] in children
    ensures i <= |children|
  {
    var p := toShow[..i];
    assert Distinct(p);
    forall x | x in p ensures x in children {
      var k :| 0 <= k < |p| && p[k] == x;
      assert toShow[k] == x;
    }
    SubsetLength(p, children);
  }
}
