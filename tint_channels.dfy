/**
 * The status-bar colour channels. Each channel keeps its configured colour
 * (`base`), the colour a running colour transition blends from (`previous`) and
 * the colour currently applied, tinted towards the dark variant (`tint`).
 * One shared colour transition blends one group of channels at a time; the
 * group is named by a single tag that the last animated update overwrites.
 */
module TintChannels {
  import opened Argb

  datatype Channel =
    | CarrierLabel
    | BatteryFrame | Battery | BatteryText
    | Clock
    | NetworkTrafficText | NetworkTrafficIcon
    | StatusIcon | NetworkSignal | NoSim | AirplaneMode
    | NotificationIcon

  /**
   * The groups a colour transition animates, the tag values 0 to 4 of the
   * controller (carrier label, battery, clock, network traffic, status and
   * network icons). The notification-icon channel belongs to no group.
   */
  datatype ColorGroup =
    | CarrierLabelGroup
    | BatteryGroup
    | ClockGroup
    | NetworkTrafficGroup
    | StatusNetworkIconGroup

  function Members(g: ColorGroup): set<Channel> {
    match g
    case CarrierLabelGroup => {CarrierLabel}
    case BatteryGroup => {BatteryFrame, Battery, BatteryText}
    case ClockGroup => {Clock}
    case NetworkTrafficGroup => {NetworkTrafficText, NetworkTrafficIcon}
    case StatusNetworkIconGroup => {StatusIcon, NetworkSignal, NoSim, AirplaneMode}
  }

  /** The groups do not overlap. */
  lemma GroupsDisjoint(g: ColorGroup, h: ColorGroup, c: Channel)
    requires c in Members(g) && c in Members(h)
    ensures g == h
  {
  }

  datatype Triple = Triple(base: Color, previous: Color, tint: Color)

  /** A channel at rest: configured, blended-from and applied colour agree. */
  predicate IsSettled(t: Triple) {
    t.base == t.previous == t.tint
  }

  function Settled(v: Color): (t: Triple)
    ensures IsSettled(t) && t.base == v
  {
    Triple(v, v, v)
  }

  type Palette = map<Channel, Triple>

  predicate Complete(p: Palette) {
    forall c: Channel :: c in p
  }

  const AllChannels: set<Channel> := {
    CarrierLabel, BatteryFrame, Battery, BatteryText, Clock, NetworkTrafficText,
    NetworkTrafficIcon, StatusIcon, NetworkSignal, NoSim, AirplaneMode, NotificationIcon}

  lemma AllChannelsListed(c: Channel)
    ensures c in AllChannels
  {
  }

  /** Every channel at rest on its configured colour. */
  function SettledPalette(configured: Channel -> Color): (p: Palette)
    ensures Complete(p)
    ensures forall c :: p[c] == Settled(configured(c))
  {
    assert forall c: Channel :: c in AllChannels by {
      forall c: Channel ensures c in AllChannels {
        AllChannelsListed(c);
      }
    }
    map c | c in AllChannels :: Settled(configured(c))
  }

  /**
   * New configured colours for some channels. Without animation each of
   * them is settled on its new colour at once; with animation only its
   * configured colour changes and the transition blends towards it.
   */
  function SetColors(p: Palette, updates: map<Channel, Color>, animate: bool): (r: Palette)
    requires Complete(p)
    ensures Complete(r)
  {
    map c | c in p :: if c !in updates then p[c]
                      else if animate then p[c].(base := updates[c])
                      else Settled(updates[c])
  }

  /** The end of a colour transition: the tagged group's channels settle on their configured colours. */
  function Settle(p: Palette, g: ColorGroup): (r: Palette)
    requires Complete(p)
    ensures Complete(r)
  {
    map c | c in p :: if c in Members(g) then Settled(p[c].base) else p[c]
  }

  /**
   * Applying a dark intensity: every channel's applied colour becomes its
   * configured colour blended `d` of the way towards its dark colour. The
   * carrier label is left alone on a device without mobile data.
   */
  function Retint(p: Palette, d: real, dark: Channel -> Color, mobileData: bool): (r: Palette)
    requires Complete(p) && 0.0 <= d <= 1.0
    ensures Complete(r)
  {
    map c | c in p :: if c == CarrierLabel && !mobileData then p[c]
                      else p[c].(tint := Evaluate(d, p[c].base, dark(c)))
  }

  /**
   * A colour update: without animation the updated channels are settled on
   * the new colours; with animation only their configured colours change.
   * Every other channel is untouched.
   */
  lemma SetColorsEffect(p: Palette, updates: map<Channel, Color>, animate: bool, c: Channel)
    requires Complete(p)
    ensures c !in updates ==> SetColors(p, updates, animate)[c] == p[c]
    ensures c in updates && !animate ==>
      IsSettled(SetColors(p, updates, animate)[c]) && SetColors(p, updates, animate)[c].base == updates[c]
    ensures c in updates && animate ==>
      SetColors(p, updates, animate)[c] == Triple(updates[c], p[c].previous, p[c].tint)
  {
  }

  /** The end of a transition settles exactly the tagged group and keeps every configured colour. */
  lemma SettleEffect(p: Palette, g: ColorGroup, c: Channel)
    requires Complete(p)
    ensures Settle(p, g)[c].base == p[c].base
    ensures c in Members(g) ==> IsSettled(Settle(p, g)[c])
    ensures c !in Members(g) ==> Settle(p, g)[c] == p[c]
  {
  }

  /**
   * Retinting keeps configured and blended-from colours, applies the
   * configured colour at intensity 0 and the dark colour at intensity 1,
   * and depends only on the configured colours, not on the previous tint.
   */
  lemma RetintEffect(p: Palette, q: Palette, d: real, dark: Channel -> Color, mobileData: bool, c: Channel)
    requires Complete(p) && Complete(q) && 0.0 <= d <= 1.0
    ensures Retint(p, d, dark, mobileData)[c].base == p[c].base
    ensures Retint(p, d, dark, mobileData)[c].previous == p[c].previous
    ensures c != CarrierLabel || mobileData ==>
      && (d == 0.0 ==> Retint(p, d, dark, mobileData)[c].tint == p[c].base)
      && (d == 1.0 ==> Retint(p, d, dark, mobileData)[c].tint == dark(c))
      && (q[c].base == p[c].base ==> Retint(p, d, dark, mobileData)[c].tint == Retint(q, d, dark, mobileData)[c].tint)
    ensures c == CarrierLabel && !mobileData ==> Retint(p, d, dark, mobileData)[c] == p[c]
  {
  }

  /**
   * The shared tag, last writer wins: when a second group's animated update
   * follows the first before the transition ends, the end settles only the
   * second group; the first group's channels keep the new configured colour
   * but not as their applied colour, until something else settles them.
   */
  lemma LastTagWins(p: Palette, first: ColorGroup, u1: map<Channel, Color>,
                    second: ColorGroup, u2: map<Channel, Color>, c: Channel)
    requires Complete(p) && first != second
    requires c in u1 && c in Members(first) && c !in u2
    ensures var q := Settle(SetColors(SetColors(p, u1, true), u2, true), second);
      q[c] == Triple(u1[c], p[c].previous, p[c].tint)
  {
    assert c !in Members(second) by {
      if c in Members(second) {
        GroupsDisjoint(first, second, c);
      }
    }
  }
}
