/** The checkpoint between extraction and projection: `normalize`, on what the model keeps of an event. Instants are
    already absolute, and a currency that passed the money type's pattern is already upper-case. */
module Normalizer {
  import opened Prelude
  import opened Json
  import opened Canonical
  import opened PyText

  function StripOrNone(text: Option<string>): Option<string> {
    if text.Some? && Strip(text.value) != "" then Some(Strip(text.value)) else None
  }

  /** A reference that survives: neither null nor a blank string. */
  predicate Kept(v: Json) {
    v != Null && (v.Str? ==> Strip(v.s) != "")
  }

  function Tidied(v: Json): Json {
    if v.Str? then Str(Strip(v.s)) else v
  }

  /** `_clean_ref_dict`. */
  function CleanRefs(refs: Refs): Refs {
    map k | k in refs && Kept(refs[k]) :: Tidied(refs[k])
  }

  /** `_normalize_location`. */
  function CleanPlace(place: Option<Location>): Option<Location> {
    if place.None? then None
    else
      var code, name := StripOrNone(place.value.code), StripOrNone(place.value.name);
      if code.None? && name.None? then None
      else Some(Location(code, name, place.value.latitude, place.value.longitude))
  }

  /** `_normalize_money`. */
  function CleanMoney(amount: Option<Money>): Option<Money> {
    if amount.None? then None
    else Some(Money(amount.value.currency, if amount.value.amountMinor < 0 then 0 else amount.value.amountMinor))
  }

  /** `normalize`. Building the new event raises where an id is blank; a validation error is not the exception that
      the pipeline catches. */
  function Normalized(ev: Event): Result<Event> {
    if Strip(ev.eventId) == "" || Strip(ev.vendorId) == "" then Raised
    else
      match ev
      case ShipmentEvent(id, vendor, external, ts, refs, kind, place) =>
        Ok(ShipmentEvent(id, Strip(vendor), Strip(external), ts, CleanRefs(refs), kind, CleanPlace(place)))
      case InvoiceEvent(id, vendor, external, ts, refs, kind, amount, dueAt) =>
        Ok(InvoiceEvent(id, Strip(vendor), Strip(external), ts, CleanRefs(refs), kind, CleanMoney(amount), dueAt))
      case UnclassifiedEvent(id, vendor, summary, reason) =>
        Ok(UnclassifiedEvent(id, Strip(vendor), StripOrNone(summary), StripOrNone(reason)))
  }

  /** Normalising is done once and for all: a normalised event is its own normal form. */
  lemma NormalizedIsNormal(ev: Event)
    requires Normalized(ev).Ok?
    ensures Normalized(Normalized(ev).value) == Normalized(ev)
  {
    StripTwice(ev.vendorId);
    match ev {
      case ShipmentEvent(_, _, external, _, refs, _, place) =>
        StripTwice(external);
        CleanRefsTwice(refs);
        CleanPlaceTwice(place);
      case InvoiceEvent(_, _, external, _, refs, _, _, _) =>
        StripTwice(external);
        CleanRefsTwice(refs);
      case UnclassifiedEvent(_, _, summary, reason) =>
        StripOrNoneTwice(summary);
        StripOrNoneTwice(reason);
    }
  }

  lemma StripOrNoneTwice(text: Option<string>)
    ensures StripOrNone(StripOrNone(text)) == StripOrNone(text)
  {
    if text.Some? {
      StripTwice(text.value);
    }
  }

  lemma CleanPlaceTwice(place: Option<Location>)
    ensures CleanPlace(CleanPlace(place)) == CleanPlace(place)
  {
    if place.Some? {
      StripOrNoneTwice(place.value.code);
      StripOrNoneTwice(place.value.name);
    }
  }

  lemma CleanRefsTwice(refs: Refs)
    ensures CleanRefs(CleanRefs(refs)) == CleanRefs(refs)
  {
    forall k | k in refs && Kept(refs[k])
      ensures Kept(Tidied(refs[k])) && Tidied(Tidied(refs[k])) == Tidied(refs[k])
    {
      if refs[k].Str? {
        StripTwice(refs[k].s);
      }
    }
  }

  // ----- Normal events -----

  predicate IsTidy(text: Option<string>) {
    text.Some? ==> text.value != "" && Strip(text.value) == text.value
  }

  /** Nothing to normalise: every text is stripped, none that may be missing is blank, no reference is null or blank, a
      location has a code or a name, and no amount is negative. */
  predicate IsNormal(ev: Event) {
    && Strip(ev.eventId) != "" && ev.vendorId != "" && Strip(ev.vendorId) == ev.vendorId
    && (!ev.UnclassifiedEvent? ==>
          && Strip(ev.externalId) == ev.externalId
          && forall k :: k in ev.refs ==>
               ev.refs[k] != Null && (ev.refs[k].Str? ==> ev.refs[k].s != "" && Strip(ev.refs[k].s) == ev.refs[k].s))
    && (ev.ShipmentEvent? && ev.location.Some? ==>
          && IsTidy(ev.location.value.code) && IsTidy(ev.location.value.name)
          && (ev.location.value.code.Some? || ev.location.value.name.Some?))
    && (ev.InvoiceEvent? && ev.amount.Some? ==> ev.amount.value.amountMinor >= 0)
    && (ev.UnclassifiedEvent? ==> IsTidy(ev.summary) && IsTidy(ev.reason))
  }

  lemma CleanRefsIff(refs: Refs)
    ensures CleanRefs(refs) == refs <==>
            forall k :: k in refs ==>
              refs[k] != Null && (refs[k].Str? ==> refs[k].s != "" && Strip(refs[k].s) == refs[k].s)
  {
    if CleanRefs(refs) == refs {
      forall k | k in refs
        ensures refs[k] != Null && (refs[k].Str? ==> refs[k].s != "" && Strip(refs[k].s) == refs[k].s)
      {
        assert k in CleanRefs(refs) && CleanRefs(refs)[k] == Tidied(refs[k]);
      }
    }
  }

  /** Normalisation returns exactly the normal events as they are. */
  lemma NormalIff(ev: Event)
    ensures Normalized(ev) == Ok(ev) <==> IsNormal(ev)
  {
    if !ev.UnclassifiedEvent? {
      CleanRefsIff(ev.refs);
    }
  }

  /** Equal up to surrounding blanks, a blank text counting as none. */
  predicate SameText(a: Option<string>, b: Option<string>) {
    (if a.Some? then Strip(a.value) else "") == (if b.Some? then Strip(b.value) else "")
  }

  /** What normalisation keeps: everything but surrounding blanks, empty references and a negative amount. */
  lemma NormalizedAgrees(ev: Event)
    requires Normalized(ev).Ok?
    ensures var tidied := Normalized(ev).value;
            && IsNormal(tidied) && tidied.eventId == ev.eventId && tidied.vendorId == Strip(ev.vendorId)
            && (ev.UnclassifiedEvent? ==>
                  && tidied.UnclassifiedEvent?
                  && SameText(tidied.summary, ev.summary) && SameText(tidied.reason, ev.reason))
            && (!ev.UnclassifiedEvent? ==>
                  && !tidied.UnclassifiedEvent? && tidied.externalId == Strip(ev.externalId) && tidied.ts == ev.ts)
            && (ev.ShipmentEvent? ==> tidied.ShipmentEvent? && tidied.shipmentType == ev.shipmentType)
            && (ev.InvoiceEvent? ==>
                  && tidied.InvoiceEvent? && tidied.invoiceType == ev.invoiceType && tidied.dueAt == ev.dueAt
                  && (tidied.amount.Some? <==> ev.amount.Some?)
                  && (ev.amount.Some? ==>
                        && tidied.amount.value.currency == ev.amount.value.currency
                        && (ev.amount.value.amountMinor >= 0 ==> tidied.amount == ev.amount)
                        && (ev.amount.value.amountMinor < 0 ==> tidied.amount.value.amountMinor == 0)))
  {
    NormalizedIsNormal(ev);
    NormalIff(Normalized(ev).value);
    if ev.UnclassifiedEvent? {
      StripOrNoneAgrees(ev.summary);
      StripOrNoneAgrees(ev.reason);
    }
  }

  lemma StripOrNoneAgrees(text: Option<string>)
    ensures SameText(StripOrNone(text), text)
  {
    if text.Some? {
      StripTwice(text.value);
    }
  }

  /** And in its parts: a location keeps its texts and its coordinates, or had neither code nor name; references keep
      what is not empty. */
  lemma NormalizedPartsAgree(ev: Event, k: string)
    requires Normalized(ev).Ok? && !ev.UnclassifiedEvent?
    ensures var tidied := Normalized(ev).value;
            && (k in tidied.refs <==> k in ev.refs && ev.refs[k] != Null && ev.refs[k] != Str("")
                                      && !(ev.refs[k].Str? && Strip(ev.refs[k].s) == ""))
            && (k in tidied.refs ==>
                  if ev.refs[k].Str? then tidied.refs[k] == Str(Strip(ev.refs[k].s)) else tidied.refs[k] == ev.refs[k])
            && (ev.ShipmentEvent? ==>
                  && (tidied.location.Some? ==>
                        && ev.location.Some?
                        && SameText(tidied.location.value.code, ev.location.value.code)
                        && SameText(tidied.location.value.name, ev.location.value.name)
                        && tidied.location.value.latitude == ev.location.value.latitude
                        && tidied.location.value.longitude == ev.location.value.longitude)
                  && (tidied.location.None? && ev.location.Some? ==>
                        SameText(ev.location.value.code, None) && SameText(ev.location.value.name, None)))
  {
    if ev.ShipmentEvent? && ev.location.Some? {
      StripOrNoneAgrees(ev.location.value.code);
      StripOrNoneAgrees(ev.location.value.name);
    }
  }
}
