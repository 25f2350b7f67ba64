/** The emergency panel of `EmergencyPanel.tsx`: the seeded list of Indian
    helplines, the add-contact form, and the handler that appends a contact
    only when both its name and its phone number are filled in. */
module Emergency {
  import opened Wrappers
  import Text

  /** An entry of the contact list. */
  datatype Contact = Contact(id: string, name: string, phone: string, relationship: string)

  /** The ten helplines the list starts with, in list order. */
  datatype Helpline =
    | NationalEmergency | Police | FireBrigade | Ambulance | Kiran
    | Vandrevala | Aasra | Sneha | ICall | Sahai
  {
    function Id(): string {
      match this
      case NationalEmergency => "1"
      case Police => "2"
      case FireBrigade => "3"
      case Ambulance => "4"
      case Kiran => "5"
      case Vandrevala => "6"
      case Aasra => "7"
      case Sneha => "8"
      case ICall => "9"
      case Sahai => "10"
    }

    function Name(): string {
      match this
      case NationalEmergency => "National Emergency"
      case Police => "Police"
      case FireBrigade => "Fire Brigade"
      case Ambulance => "Ambulance"
      case Kiran => "KIRAN Mental Health"
      case Vandrevala => "Vandrevala Foundation"
      case Aasra => "AASRA Helpline"
      case Sneha => "Sneha Foundation"
      case ICall => "iCall TISS"
      case Sahai => "Sahai Bangalore"
    }

    function Phone(): string {
      match this
      case NationalEmergency => "112"
      case Police => "100"
      case FireBrigade => "101"
      case Ambulance => "108"
      case Kiran => "1800-599-0019"
      case Vandrevala => "9999666555"
      case Aasra => "91-9820466726"
      case Sneha => "044-24640050"
      case ICall => "9152987821"
      case Sahai => "080-25497777"
    }

    function Relationship(): string {
      match this
      case NationalEmergency => "All Emergency Services"
      case Police => "Police Emergency"
      case FireBrigade => "Fire Emergency"
      case Ambulance => "Medical Emergency"
      case Kiran => "Mental Health Support"
      case Vandrevala => "Crisis Intervention"
      case Aasra => "Suicide Prevention"
      case Sneha => "Emotional Support"
      case ICall => "Psychosocial Support"
      case Sahai => "Emotional Support"
    }

    function Record(): Contact {
      Contact(Id(), Name(), Phone(), Relationship())
    }
  }

  function Helplines(): seq<Helpline> {
    [NationalEmergency, Police, FireBrigade, Ambulance, Kiran,
     Vandrevala, Aasra, Sneha, ICall, Sahai]
  }

  /** A helpline's place in the list. */
  function Position(h: Helpline): (i: nat)
    ensures i < |Helplines()| && Helplines()[i] == h
  {
    match h
    case NationalEmergency => 0
    case Police => 1
    case FireBrigade => 2
    case Ambulance => 3
    case Kiran => 4
    case Vandrevala => 5
    case Aasra => 6
    case Sneha => 7
    case ICall => 8
    case Sahai => 9
  }

  /** The initial value of `contacts`. */
  function SeedContacts(): (cs: seq<Contact>)
    ensures |cs| == |Helplines()| == 10
    ensures forall i :: 0 <= i < |cs| ==> cs[i] == Helplines()[i].Record()
  {
    seq(10, i requires 0 <= i < 10 => Helplines()[i].Record())
  }

  /** The seeded ids count up from "1": the helpline at place i has id i + 1. */
  lemma SeedIdsCountUp(h: Helpline)
    ensures h.Id() == Text.NatToString(Position(h) + 1)
  {
  }

  /** The helpline a seeded id names. */
  function HelplineOfId(id: string): Option<Helpline> {
    match id
    case "1" => Some(NationalEmergency)
    case "2" => Some(Police)
    case "3" => Some(FireBrigade)
    case "4" => Some(Ambulance)
    case "5" => Some(Kiran)
    case "6" => Some(Vandrevala)
    case "7" => Some(Aasra)
    case "8" => Some(Sneha)
    case "9" => Some(ICall)
    case "10" => Some(Sahai)
    case _ => None
  }

  /** Each seeded id names its own helpline, so the list's keys are distinct. */
  lemma SeedIdReadsBack(h: Helpline)
    ensures HelplineOfId(h.Id()) == Some(h)
  {
  }

  /** A contact added after the first ten milliseconds of the epoch gets an id
      that no seeded helpline uses. */
  lemma StampedIdAvoidsSeeds(h: Helpline, now: nat)
    requires now > 10
    ensures Text.NatToString(now) != h.Id()
  {
    var i := Position(h) + 1;
    SeedIdsCountUp(h);
    Text.ParseNatToString(now);
    Text.ParseNatToString(i);
  }

  /** Every seeded helpline has a name and a number. */
  lemma HelplineIsFilled(h: Helpline)
    ensures Filled(h.Record())
  {
  }

  /** The add-contact form, `newContact`. */
  datatype Form = Form(name: string, phone: string, relationship: string)

  function EmptyForm(): Form {
    Form("", "", "")
  }

  /** The panel's state. */
  datatype PanelState = PanelState(contacts: seq<Contact>, showAddContact: bool, newContact: Form)

  function Initial(): PanelState {
    PanelState(SeedContacts(), false, EmptyForm())
  }

  /** The guard of `handleAddContact`: both strings truthy, that is non-empty.
      A name of spaces passes; the relationship is not looked at. */
  predicate CanAdd(f: Form) {
    f.name != "" && f.phone != ""
  }

  /** `handleAddContact`, with `Date.now()` passed in as `now`. */
  function AddContact(s: PanelState, now: nat): (t: PanelState)
    ensures CanAdd(s.newContact) ==>
      |t.contacts| == |s.contacts| + 1 &&
      t.contacts[..|s.contacts|] == s.contacts &&
      t.contacts[|s.contacts|..] ==
        [Contact(Text.NatToString(now), s.newContact.name, s.newContact.phone, s.newContact.relationship)] &&
      t.newContact == EmptyForm() && !t.showAddContact
    ensures !CanAdd(s.newContact) ==> t == s
  {
    if CanAdd(s.newContact) then
      var f := s.newContact;
      PanelState(s.contacts + [Contact(Text.NatToString(now), f.name, f.phone, f.relationship)],
                 false, EmptyForm())
    else s
  }

  /** Submitting adds exactly one contact when the guard holds and none
      otherwise; the list never shrinks. */
  lemma AddGrowsByOneIff(s: PanelState, now: nat)
    ensures |AddContact(s, now).contacts| == |s.contacts| + 1 <==> CanAdd(s.newContact)
    ensures |AddContact(s, now).contacts| == |s.contacts| <==> !CanAdd(s.newContact)
  {
  }

  /** A blank-looking name is still accepted, and an empty relationship does
      not block the add. */
  lemma WhitespaceNameIsAccepted(s: PanelState, now: nat)
    requires s.newContact.name == " " && s.newContact.phone != ""
    ensures |AddContact(s, now).contacts| == |s.contacts| + 1
    ensures AddContact(s, now).contacts[|s.contacts|].name == " "
  {
  }

  /** The three inputs of the form. */
  datatype Field = NameField | PhoneField | RelationshipField

  /** `setNewContact({ ...newContact, field: e.target.value })`: the field
      being typed into holds what was typed; the others keep their values. */
  function Edit(f: Form, field: Field, value: string): (g: Form)
    ensures g.name == (if field == NameField then value else f.name)
    ensures g.phone == (if field == PhoneField then value else f.phone)
    ensures g.relationship == (if field == RelationshipField then value else f.relationship)
  {
    match field
    case NameField => f.(name := value)
    case PhoneField => f.(phone := value)
    case RelationshipField => f.(relationship := value)
  }

  /** Typing the old value back is a no-op, and a later edit of the same field wins. */
  lemma EditLastWins(f: Form, field: Field, a: string, b: string)
    ensures Edit(Edit(f, field, a), field, b) == Edit(f, field, b)
    ensures Edit(f, NameField, f.name) == f
  {
  }

  /** `handleCallContact`: the link the dial button opens. */
  function TelLink(phone: string): (url: string)
    ensures |url| == |phone| + 4
  {
    "tel:" + phone
  }

  /** The dialled number is the contact's own: it reads back from the link. */
  lemma TelLinkReadsBack(phone: string)
    ensures TelLink(phone)[..4] == "tel:" && TelLink(phone)[4..] == phone
  {
  }

  /** What the user can do on the panel. */
  datatype Event =
    | AddClicked
    | Typed(field: Field, value: string)
    | SubmitClicked(now: nat)
    | CancelClicked

  /** One event on the panel. The inputs and the submit button render only
      while the form is open; `Step` accepts `Typed` and `SubmitClicked` in any
      state, so every property proved of `Step` and `Run` also covers the
      smaller set of event sequences the page can produce. */
  function Step(s: PanelState, e: Event): PanelState {
    match e
    case AddClicked => s.(showAddContact := true)
    case Typed(field, value) => s.(newContact := Edit(s.newContact, field, value))
    case SubmitClicked(now) => AddContact(s, now)
    case CancelClicked => s.(showAddContact := false)
  }

  function Run(s: PanelState, events: seq<Event>): PanelState
    decreases |events|
  {
    if |events| == 0 then s else Run(Step(s, events[0]), events[1..])
  }

  /** A contact has a name and a number to dial. */
  predicate Filled(c: Contact) {
    c.name != "" && c.phone != ""
  }

  predicate AllFilled(cs: seq<Contact>) {
    forall i :: 0 <= i < |cs| ==> Filled(cs[i])
  }

  /** The panel opens on the ten helplines, each with a name and a number. */
  lemma InitialIsFilled()
    ensures |Initial().contacts| == 10
    ensures AllFilled(Initial().contacts)
  {
    forall i | 0 <= i < |Initial().contacts| ensures Filled(Initial().contacts[i]) {
      HelplineIsFilled(Helplines()[i]);
    }
  }

  /** One step keeps every contact filled and the old list as a prefix. */
  lemma StepKeeps(s: PanelState, e: Event)
    requires AllFilled(s.contacts)
    ensures AllFilled(Step(s, e).contacts)
    ensures |s.contacts| <= |Step(s, e).contacts|
    ensures Step(s, e).contacts[..|s.contacts|] == s.contacts
  {
    var t := Step(s, e);
    if e.SubmitClicked? && CanAdd(s.newContact) {
      assert t.contacts == s.contacts + [t.contacts[|s.contacts|]];
    }
  }

  /** Whatever the user does, contacts are only ever appended, never edited
      or removed, and every contact in the list can be dialled by name. */
  lemma {:induction false} RunKeeps(s: PanelState, events: seq<Event>)
    requires AllFilled(s.contacts)
    ensures AllFilled(Run(s, events).contacts)
    ensures |s.contacts| <= |Run(s, events).contacts|
    ensures Run(s, events).contacts[..|s.contacts|] == s.contacts
    decreases |events|
  {
    if |events| > 0 {
      var t := Step(s, events[0]);
      StepKeeps(s, events[0]);
      RunKeeps(t, events[1..]);
      var u := Run(t, events[1..]);
      assert u.contacts[..|s.contacts|] == u.contacts[..|t.contacts|][..|s.contacts|];
    }
  }

  /** The helplines stay at the head of the list for the life of the panel. */
  lemma HelplinesStayFirst(events: seq<Event>, h: Helpline)
    ensures Position(h) < |Run(Initial(), events).contacts|
    ensures Run(Initial(), events).contacts[Position(h)] == h.Record()
  {
    InitialIsFilled();
    RunKeeps(Initial(), events);
    var cs := Run(Initial(), events).contacts;
    assert cs[Position(h)] == cs[..10][Position(h)];
  }
}
