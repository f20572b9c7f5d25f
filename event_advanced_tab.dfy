/**
 The advanced-settings tab of an event type: the booking-field sample map, the
 guests rewrite, the seats / redirect / private-link switches and the lazily
 created private-link token.

 The form store (react-hook-form) is the record `FormValues`; the component's
 own React state slots and its `eventType` prop sit beside it in the class
 `EventAdvancedForm`. Each switch handler is a method that performs the
 component's `setValue` and state-setter calls in order and is proved equal to a pure transition
 on the record, about which the lemmas speak.
 */
module EventAdvancedTab {
  import opened Wrappers

  /** The name of the booking field that seats hide and show. */
  const GuestsFieldName: string := "guests"

  /** The value `paymentOption` takes when the no-show fee is held on the card. */
  const HoldPaymentOption: string := "HOLD"

  /** The seat capacity used when the event type has none stored. */
  const DefaultSeatsPerTimeSlot: int := 2

  /** Editability tier of a booking field. */
  datatype Editable = UserEditable | SystemRequired | SystemButOptional | SystemButHidden

  /**
   A booking question. `rest` stands for every other property of the field
   (label, type, options, ...); the guests rewrite copies it through the
   object spread.
   */
  datatype BookingField = BookingField(name: string, editable: Editable, hidden: bool, rest: map<string, string>)

  /** `metadata.apps.stripe`, each part possibly absent. */
  datatype StripeSettings = StripeSettings(enabled: Option<bool>, paymentOption: Option<string>)

  /**
   The parts of the event type's `metadata` this tab reads or writes. `stripe`
   is `None` when any link of `metadata?.apps?.stripe` is missing.
   */
  datatype Metadata = Metadata(multipleDuration: Option<seq<int>>, stripe: Option<StripeSettings>)

  /** The form values this tab reads or writes. */
  datatype FormValues = FormValues(
    bookingFields: seq<BookingField>,
    requiresConfirmation: bool,
    seatsPerTimeSlotEnabled: bool,
    seatsPerTimeSlot: Option<int>,
    metadata: Metadata,
    successRedirectUrl: string,
    hashedLink: Option<string>,
    slug: string)

  /** The parts of the `eventType` prop this tab reads: the stored capacity and `hashedLink?.link`. */
  datatype EventTypeProps = EventTypeProps(seatsPerTimeSlot: Option<int>, hashedLink: Option<string>)

  /** JavaScript truthiness of an optional string: present and not empty. */
  predicate Truthy(s: Option<string>)
  {
    s.Some? && s.value != ""
  }

  /** The tier toggleGuests gives the guests field. */
  function GuestsTier(enabled: bool): Editable
  {
    if enabled then SystemButOptional else SystemButHidden
  }

  /** All booking-field names. */
  function FieldNames(fields: seq<BookingField>): set<string>
  {
    set i | 0 <= i < |fields| :: fields[i].name
  }

  // ---------------------------------------------------------------------------
  // Booking-field sample values
  // ---------------------------------------------------------------------------

  /**
   The `bookingFields` object handed to the event-name template: one entry per
   booking-field name, whose value is that name followed by " input".
   */
  method BookingFieldSamples(fields: seq<BookingField>) returns (samples: map<string, string>)
    ensures samples.Keys == FieldNames(fields)
    ensures forall name :: name in samples ==> samples[name] == name + " input"
  {
    samples := map[];
    for i := 0 to |fields|
      invariant samples.Keys == set j | 0 <= j < i :: fields[j].name
      invariant forall name :: name in samples ==> samples[name] == name + " input"
    {
      var name := fields[i].name;
      samples := samples[name := name + " input"];
    }
  }

  // ---------------------------------------------------------------------------
  // toggleGuests
  // ---------------------------------------------------------------------------

  /**
   The booking fields after `toggleGuests(enabled)`: the same fields in the
   same order, where each field named "guests" is hidden exactly when guests are
   disabled and switches between the optional and hidden system tiers.
   */
  function GuestsToggled(fields: seq<BookingField>, enabled: bool): (r: seq<BookingField>)
    ensures |r| == |fields|
    ensures forall i :: 0 <= i < |fields| && fields[i].name != GuestsFieldName ==> r[i] == fields[i]
    ensures forall i :: 0 <= i < |fields| && fields[i].name == GuestsFieldName ==>
      && r[i].name == fields[i].name
      && r[i].rest == fields[i].rest
      && r[i].hidden == !enabled
      && (r[i].editable == SystemButHidden <==> !enabled)
      && (r[i].editable == SystemButOptional <==> enabled)
  {
    if fields == [] then []
    else
      var f := fields[0];
      var head := if f.name == GuestsFieldName then f.(hidden := !enabled, editable := GuestsTier(enabled)) else f;
      [head] + GuestsToggled(fields[1..], enabled)
  }

  /** Every guests field is already in the shape `toggleGuests(enabled)` gives it. */
  predicate GuestsAre(fields: seq<BookingField>, enabled: bool)
  {
    forall i :: 0 <= i < |fields| && fields[i].name == GuestsFieldName ==>
      fields[i].hidden == !enabled && fields[i].editable == GuestsTier(enabled)
  }

  /** After the rewrite every guests field is in the target shape, and the field names are unchanged. */
  lemma GuestsToggledShape(fields: seq<BookingField>, enabled: bool)
    ensures GuestsAre(GuestsToggled(fields, enabled), enabled)
    ensures FieldNames(GuestsToggled(fields, enabled)) == FieldNames(fields)
  {
  }

  /** Fields already in the target shape are left exactly as they are. */
  lemma GuestsToggledFixes(fields: seq<BookingField>, enabled: bool)
    requires GuestsAre(fields, enabled)
    ensures GuestsToggled(fields, enabled) == fields
  {
  }

  /** Only the last toggle counts: toggling again overrides the earlier one. */
  lemma GuestsToggledLastWins(fields: seq<BookingField>, first: bool, second: bool)
    ensures GuestsToggled(GuestsToggled(fields, first), second) == GuestsToggled(fields, second)
  {
  }

  /** Hiding and then showing guests again returns fields that started visible unchanged. */
  lemma GuestsToggledRoundTrip(fields: seq<BookingField>, enabled: bool)
    requires GuestsAre(fields, enabled)
    ensures GuestsToggled(GuestsToggled(fields, !enabled), enabled) == fields
  {
  }

  // ---------------------------------------------------------------------------
  // Seats
  // ---------------------------------------------------------------------------

  /**
   `noShowFeeEnabled`: the no-show fee is held exactly when the stripe settings
   are present with `enabled` true and the HOLD payment option; a missing,
   false or other value of either part leaves it off.
   */
  function NoShowFeeEnabled(metadata: Metadata): (held: bool)
    ensures held <==> metadata.stripe == Some(StripeSettings(Some(true), Some(HoldPaymentOption)))
  {
    && metadata.stripe.Some?
    && metadata.stripe.value.enabled == Some(true)
    && metadata.stripe.value.paymentOption == Some(HoldPaymentOption)
  }

  /**
   The form values after the seats switch's handler runs with `on`. Turning
   seats on hides guests, drops the confirmation requirement and the multiple
   durations and sets the capacity to the stored one (or 2); turning seats off
   clears the capacity and shows guests again. Nothing else changes.
   */
  function SeatsToggled(v: FormValues, stored: Option<int>, on: bool): (r: FormValues)
    ensures r.seatsPerTimeSlotEnabled == on
    ensures r.bookingFields == GuestsToggled(v.bookingFields, !on)
    ensures on ==> !r.requiresConfirmation && r.metadata.multipleDuration.None?
    ensures on ==> r.seatsPerTimeSlot == Some(if stored.Some? then stored.value else DefaultSeatsPerTimeSlot)
    ensures !on ==> r.seatsPerTimeSlot.None?
    ensures !on ==> r.requiresConfirmation == v.requiresConfirmation && r.metadata == v.metadata
    ensures r.metadata.stripe == v.metadata.stripe
    ensures r.successRedirectUrl == v.successRedirectUrl && r.hashedLink == v.hashedLink && r.slug == v.slug
  {
    if on then
      v.(bookingFields := GuestsToggled(v.bookingFields, false),
         requiresConfirmation := false,
         metadata := v.metadata.(multipleDuration := None),
         seatsPerTimeSlot := Some(stored.GetOr(DefaultSeatsPerTimeSlot)),
         seatsPerTimeSlotEnabled := true)
    else
      v.(seatsPerTimeSlot := None,
         bookingFields := GuestsToggled(v.bookingFields, true),
         seatsPerTimeSlotEnabled := false)
  }

  /** With seats on, every guests field is hidden system-but-hidden; with seats off, visible system-but-optional. */
  lemma SeatsExcludeGuests(v: FormValues, stored: Option<int>, on: bool)
    ensures var r := SeatsToggled(v, stored, on);
      forall i :: 0 <= i < |r.bookingFields| && r.bookingFields[i].name == GuestsFieldName ==>
        r.bookingFields[i].hidden == on
        && r.bookingFields[i].editable == (if on then SystemButHidden else SystemButOptional)
  {
  }

  /** Flipping the switch twice the same way is the same as flipping it once. */
  lemma SeatsToggledIdempotent(v: FormValues, stored: Option<int>, on: bool)
    ensures SeatsToggled(SeatsToggled(v, stored, on), stored, on) == SeatsToggled(v, stored, on)
  {
  }

  /**
   Seats on then off gives back the original form exactly when nothing seats
   clear was set: seats were off without a capacity, guests were visible, no
   confirmation was required and no multiple durations were chosen.
   */
  lemma SeatsOnOffRoundTrip(v: FormValues, stored: Option<int>)
    requires !v.seatsPerTimeSlotEnabled && v.seatsPerTimeSlot.None?
    requires GuestsAre(v.bookingFields, true)
    requires !v.requiresConfirmation && v.metadata.multipleDuration.None?
    ensures SeatsToggled(SeatsToggled(v, stored, true), stored, false) == v
  {
  }

  /** A required confirmation does not survive seats on then off. */
  lemma SeatsOnOffDropsConfirmation(v: FormValues, stored: Option<int>)
    ensures !SeatsToggled(SeatsToggled(v, stored, true), stored, false).requiresConfirmation
  {
  }

  // ---------------------------------------------------------------------------
  // Private link
  // ---------------------------------------------------------------------------

  /** How a template literal renders an optional string: an absent one reads "undefined". */
  function TemplateText(s: Option<string>): string
  {
    if s.Some? then s.value else "undefined"
  }

  /** The private booking URL shown in the tab: base URL, "/d/", token, "/", slug. */
  function PlaceholderHashedLink(calUrl: string, hashedUrl: Option<string>, slug: string): (r: string)
    ensures |r| == |calUrl| + 3 + |TemplateText(hashedUrl)| + 1 + |slug|
    ensures r[..|calUrl|] == calUrl && r[|calUrl|..|calUrl| + 3] == "/d/"
    ensures r[|calUrl| + 3..|r| - |slug| - 1] == TemplateText(hashedUrl)
    ensures r[|r| - |slug| - 1..] == "/" + slug
    ensures hashedUrl.Some? ==> r[|calUrl| + 3..|r| - |slug| - 1] == hashedUrl.value
    ensures hashedUrl.None? ==> r[|calUrl| + 3..|r| - |slug| - 1] == "undefined"
  {
    calUrl + "/d/" + TemplateText(hashedUrl) + "/" + slug
  }

  /** In `a + "/" + s` with no "/" in `a`, the first "/" stands right after `a`. */
  lemma FirstSlashAt(a: string, s: string)
    requires '/' !in a
    ensures (a + "/" + s)[|a|] == '/'
    ensures forall k :: 0 <= k < |a| ==> (a + "/" + s)[k] != '/'
  {
  }

  /** A text followed by "/" and a suffix determines both when the text has no "/". */
  lemma SplitAtSlash(a: string, s: string, b: string, t: string)
    requires '/' !in a && '/' !in b
    requires a + "/" + s == b + "/" + t
    ensures a == b && s == t
  {
    var x, y := a + "/" + s, b + "/" + t;
    FirstSlashAt(a, s);
    FirstSlashAt(b, t);
    assert |a| == |b|;
    assert a == x[..|a|];
    assert b == y[..|b|];
    assert s == x[|a| + 1..];
    assert t == y[|b| + 1..];
  }

  /**
   For one base URL, the private link determines the token and the slug, as
   long as tokens carry no "/" (the short-uuid alphabet has none). So two
   different tokens never give the same link.
   */
  lemma PlaceholderHashedLinkInjective(calUrl: string, t1: string, s1: string, t2: string, s2: string)
    requires '/' !in t1 && '/' !in t2
    requires PlaceholderHashedLink(calUrl, Some(t1), s1) == PlaceholderHashedLink(calUrl, Some(t2), s2)
    ensures t1 == t2 && s1 == s2
  {
    var p := calUrl + "/d/";
    var x, y := p + t1 + "/" + s1, p + t2 + "/" + s2;
    assert x[|p|..] == t1 + "/" + s1;
    assert y[|p|..] == t2 + "/" + s2;
    SplitAtSlash(t1, s1, t2, s2);
  }

  // ---------------------------------------------------------------------------
  // The form session
  // ---------------------------------------------------------------------------

  /**
   One mounted advanced tab: the form store `values`, the React state slots
   (`requiresConfirmationShown`, `hashedLinkVisible`, `redirectUrlVisible`,
   `hashedUrl`) and the `eventType` prop. Every method names in `modifies` the
   slots it writes, so all others are unchanged; only EnsureHashedUrl may write
   `hashedUrl`.
   */
  class EventAdvancedForm {
    var values: FormValues
    var requiresConfirmationShown: bool
    var hashedLinkVisible: bool
    var redirectUrlVisible: bool
    var hashedUrl: Option<string>
    const eventType: EventTypeProps

    /** The first render: each state slot starts from the loaded values. */
    constructor (initial: FormValues, eventType: EventTypeProps)
      ensures values == initial && this.eventType == eventType
      ensures hashedLinkVisible == Truthy(initial.hashedLink)
      ensures redirectUrlVisible == (initial.successRedirectUrl != "")
      ensures hashedUrl == eventType.hashedLink
      ensures requiresConfirmationShown == initial.requiresConfirmation
    {
      values := initial;
      this.eventType := eventType;
      hashedLinkVisible := Truthy(initial.hashedLink);
      redirectUrlVisible := initial.successRedirectUrl != "";
      hashedUrl := eventType.hashedLink;
      requiresConfirmationShown := initial.requiresConfirmation;
    }

    /** The session already holds a private-link token. */
    predicate HasToken()
      reads this
    {
      Truthy(hashedUrl)
    }

    /** The private booking URL for the current token and slug. */
    function PrivateLinkUrl(calUrl: string): string
      reads this
    {
      PlaceholderHashedLink(calUrl, hashedUrl, values.slug)
    }

    /**
     The effect that creates the token: `generated` is what the generator
     returns on this run. A token once held is never replaced.
     */
    method EnsureHashedUrl(generated: string)
      modifies this`hashedUrl
      ensures old(HasToken()) ==> hashedUrl == old(hashedUrl)
      ensures !old(HasToken()) ==> hashedUrl == Some(generated)
    {
      if !HasToken() {
        hashedUrl := Some(generated);
      }
    }

    /** `toggleGuests`: rewrites the booking fields and nothing else. */
    method ToggleGuests(enabled: bool)
      modifies this`values
      ensures values == old(values).(bookingFields := GuestsToggled(old(values).bookingFields, enabled))
    {
      var fields := values.bookingFields;
      values := values.(bookingFields := GuestsToggled(fields, enabled));
    }

    /** The seats switch's `onCheckedChange` handler, step by step. */
    method SeatsCheckedChange(on: bool)
      modifies this`values, this`requiresConfirmationShown
      ensures values == SeatsToggled(old(values), eventType.seatsPerTimeSlot, on)
      ensures requiresConfirmationShown == (if on then false else old(requiresConfirmationShown))
    {
      if on {
        ToggleGuests(false);
        values := values.(requiresConfirmation := false);
        requiresConfirmationShown := false;
        values := values.(metadata := values.metadata.(multipleDuration := None));
        values := values.(seatsPerTimeSlot := Some(eventType.seatsPerTimeSlot.GetOr(DefaultSeatsPerTimeSlot)));
      } else {
        values := values.(seatsPerTimeSlot := None);
        ToggleGuests(true);
      }
      values := values.(seatsPerTimeSlotEnabled := on);
    }

    /**
     A click on the seats switch. The switch is disabled while the no-show fee
     is held, and then nothing changes; otherwise the handler runs.
     */
    method ClickSeatsSwitch(on: bool) returns (applied: bool)
      modifies this`values, this`requiresConfirmationShown
      ensures applied <==> !NoShowFeeEnabled(old(values).metadata)
      ensures applied ==> values == SeatsToggled(old(values), eventType.seatsPerTimeSlot, on)
      ensures applied ==> requiresConfirmationShown == (if on then false else old(requiresConfirmationShown))
      ensures !applied ==> values == old(values) && requiresConfirmationShown == old(requiresConfirmationShown)
    {
      applied := !NoShowFeeEnabled(values.metadata);
      if applied {
        SeatsCheckedChange(on);
      }
    }

    /** The seat-count input: the absolute value of what was typed, as an integer. */
    method SetSeatCount(typed: int)
      modifies this`values
      ensures values == old(values).(seatsPerTimeSlot := Some(if typed < 0 then -typed else typed))
    {
      values := values.(seatsPerTimeSlot := Some(if typed < 0 then -typed else typed));
    }

    /**
     The redirect switch's `onCheckedChange` handler: keeps the current URL when
     switched on and clears it when switched off.
     */
    method RedirectCheckedChange(on: bool)
      modifies this`values, this`redirectUrlVisible
      ensures redirectUrlVisible == on
      ensures values == old(values).(successRedirectUrl := if on then old(values).successRedirectUrl else "")
    {
      redirectUrlVisible := on;
      values := values.(successRedirectUrl := if on then values.successRedirectUrl else "");
    }

    /** Typing into the redirect URL field. */
    method EditRedirectUrl(url: string)
      modifies this`values
      ensures values == old(values).(successRedirectUrl := url)
    {
      values := values.(successRedirectUrl := url);
    }

    /**
     The private-link switch's `onCheckedChange` handler: attaches the session
     token when on and detaches it when off, leaving the token itself alone.
     */
    method HashedLinkCheckedChange(on: bool)
      modifies this`values, this`hashedLinkVisible
      ensures hashedLinkVisible == on
      ensures values == old(values).(hashedLink := if on then hashedUrl else None)
    {
      values := values.(hashedLink := if on then hashedUrl else None);
      hashedLinkVisible := on;
    }
  }

  // ---------------------------------------------------------------------------
  // Sessions of several steps
  // ---------------------------------------------------------------------------

  /**
   Redirect on, a URL typed, redirect off, redirect on again: the URL is gone,
   whatever the form held before.
   */
  method RedirectOffLosesUrl(initial: FormValues, props: EventTypeProps, url: string) returns (final: string)
    ensures final == ""
  {
    var form := new EventAdvancedForm(initial, props);
    form.RedirectCheckedChange(true);
    form.EditRedirectUrl(url);
    form.RedirectCheckedChange(false);
    form.RedirectCheckedChange(true);
    final := form.values.successRedirectUrl;
  }

  /**
   The token effect runs, the private link is switched on, off, the effect
   runs again with a fresh generator output, and the link is switched on
   again: both times the same token and the same URL are attached; it is the
   loaded token when there was one and the first generated one otherwise.
   */
  method PrivateLinkReattaches(initial: FormValues, props: EventTypeProps, calUrl: string, first: string, second: string)
    returns (before: Option<string>, after: Option<string>, urlBefore: string, urlAfter: string)
    requires first != ""
    ensures before == after && urlBefore == urlAfter
    ensures before == if Truthy(props.hashedLink) then props.hashedLink else Some(first)
    ensures urlBefore == PlaceholderHashedLink(calUrl, before, initial.slug)
  {
    var form := new EventAdvancedForm(initial, props);
    form.EnsureHashedUrl(first);
    form.HashedLinkCheckedChange(true);
    before, urlBefore := form.values.hashedLink, form.PrivateLinkUrl(calUrl);
    form.HashedLinkCheckedChange(false);
    form.EnsureHashedUrl(second);
    form.HashedLinkCheckedChange(true);
    after, urlAfter := form.values.hashedLink, form.PrivateLinkUrl(calUrl);
  }

  /**
   Turning seats on in a fresh form whose event type stores no capacity gives
   two seats, hidden guests and no confirmation requirement, unless the
   no-show fee is held, in which case the form is unchanged.
   */
  method SeatsOnScenario(initial: FormValues, props: EventTypeProps) returns (applied: bool, after: FormValues)
    requires props.seatsPerTimeSlot.None?
    ensures applied <==> !NoShowFeeEnabled(initial.metadata)
    ensures !applied ==> after == initial
    ensures applied ==> after.seatsPerTimeSlotEnabled && after.seatsPerTimeSlot == Some(2) && !after.requiresConfirmation
    ensures applied ==> GuestsAre(after.bookingFields, false)
  {
    var form := new EventAdvancedForm(initial, props);
    applied := form.ClickSeatsSwitch(true);
    after := form.values;
    if applied {
      GuestsToggledShape(initial.bookingFields, false);
    }
  }
}
