/**
 * The alert dialog the student dashboard keeps mounted: it owns the
 * description draft, and reports back through its two callbacks, which
 * are modelled as the event it returns to its owner.
 */
module Dialog {
  import opened Wrappers
  import opened Geolocation
  import opened AlertStore

  /** A call of the `onOpenChange` or the `onSubmit` prop. */
  datatype DialogEvent = OpenChange(open: bool) | Submit(description: Option<string>)

  /** `description || undefined`: an empty draft is passed on as no description at all. */
  function SubmittedDescription(draft: string): (d: Option<string>)
    ensures d.None? <==> draft == ""
    ensures d.Some? ==> d.value == draft
  {
    if draft == "" then None else Some(draft)
  }

  /** The dialog's heading; any type outside the three gets the generic "Alert". */
  function AlertTitle(alertType: string): (title: string)
    ensures alertType == High ==> title == "High Alert"
    ensures alertType == Moderate ==> title == "Moderate Alert"
    ensures alertType == General ==> title == "General Complaint"
    ensures title == "Alert" <==> alertType != High && alertType != Moderate && alertType != General
  {
    if alertType == High then "High Alert"
    else if alertType == Moderate then "Moderate Alert"
    else if alertType == General then "General Complaint"
    else "Alert"
  }

  /** Whether the description textarea is rendered: for every type except the emergency one. */
  predicate ShowDescriptionField(alertType: string): (shown: bool)
    ensures alertType == Moderate || alertType == General ==> shown
    ensures shown <==> AlertTitle(alertType) != "High Alert"
  {
    alertType != High
  }

  /** Whether the "Location: lat, lng" line is rendered: whenever a fix is known. */
  predicate ShowsLocationLine(location: Option<Coords>): (shown: bool)
    ensures shown <==> location != None
  {
    location.Some?
  }

  class AlertDialog {
    /** The `description` state cell: the draft typed so far. */
    var description: string

    constructor ()
      ensures description == ""
    {
      description := "";
    }

    /** The textarea's `onChange`. */
    method Edit(text: string)
      modifies this
      ensures description == text
    {
      description := text;
    }

    /** "Send Alert": hands the draft to `onSubmit`, then clears it. */
    method HandleSubmit() returns (e: DialogEvent)
      modifies this
      ensures e == Submit(SubmittedDescription(old(description)))
      ensures description == ""
    {
      e := Submit(if description == "" then None else Some(description));
      description := "";
    }

    /** "Cancel": asks the owner to close the dialog; the draft stays as it is. */
    method Cancel() returns (e: DialogEvent)
      ensures e == OpenChange(false)
    {
      e := OpenChange(false);
    }
  }
}
