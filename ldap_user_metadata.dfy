/**
 * The metadata of a user of an LDAP directory: thirteen nullable fields,
 * their getters and setters, a projection to thirteen (key, value) entries
 * of a JSON object, and a twelve-line text form.
 */
module LdapUserMetadata {
  import opened Wrappers
  import JavaText

  /** Java's long: a signed 64-bit integer. */
  newtype Long = x: int | -0x8000_0000_0000_0000 <= x < 0x8000_0000_0000_0000

  /** The thirteen fields, in the order they are declared; None is null. */
  datatype Metadata = Metadata(
    username: Option<string>,
    userdn: Option<string>,
    firstname: Option<string>,
    lastname: Option<string>,
    uid: Option<string>,
    emailaddresses: Option<string>,
    primaryemail: Option<string>,
    phonenumbers: Option<string>,
    primaryphone: Option<string>,
    defaultcommunication: Option<string>,
    fidokeysenabled: Option<string>,
    twostepverification: Option<string>,
    did: Option<Long>)

  // ---------------------------------------------------------------------
  // The JSON object
  // ---------------------------------------------------------------------

  /** The LDAP_ATTR_KEY_* names of the JSON object's members; their spelled-out strings are left abstract. */
  datatype Key =
    | CommonName | Dn | Uid | FName | Surname | EmailAddresses | PrimaryEmail
    | PhoneNumbers | PrimaryPhone | DefaultTarget | FidoEnabled | TwoStepVerify | DomainId

  datatype JsonValue = JsonString(str: string) | JsonNumber(num: Long)

  /** A JSON object as the builder produces it: its members in the order they were added. */
  type JsonObject = seq<(Key, JsonValue)>

  /** The order in which getJSONObject adds the keys. */
  const KeyOrder: seq<Key> :=
    [CommonName, Dn, Uid, FName, Surname, EmailAddresses, PrimaryEmail,
     PhoneNumbers, PrimaryPhone, DefaultTarget, FidoEnabled, TwoStepVerify, DomainId]

  /** The position of k in KeyOrder. */
  function KeyIndex(k: Key): (i: nat)
    ensures i < |KeyOrder| && KeyOrder[i] == k
    ensures forall j :: 0 <= j < |KeyOrder| && KeyOrder[j] == k ==> j == i
  {
    match k
    case CommonName => 0
    case Dn => 1
    case Uid => 2
    case FName => 3
    case Surname => 4
    case EmailAddresses => 5
    case PrimaryEmail => 6
    case PhoneNumbers => 7
    case PrimaryPhone => 8
    case DefaultTarget => 9
    case FidoEnabled => 10
    case TwoStepVerify => 11
    case DomainId => 12
  }

  function StringValue(field: Option<string>): Option<JsonValue>
  {
    if field.Some? then Some(JsonString(field.value)) else None
  }

  /** The field whose value each key carries; None when that field is null. */
  function FieldOf(m: Metadata, k: Key): Option<JsonValue>
  {
    match k
    case CommonName => StringValue(m.username)
    case Dn => StringValue(m.userdn)
    case Uid => StringValue(m.uid)
    case FName => StringValue(m.firstname)
    case Surname => StringValue(m.lastname)
    case EmailAddresses => StringValue(m.emailaddresses)
    case PrimaryEmail => StringValue(m.primaryemail)
    case PhoneNumbers => StringValue(m.phonenumbers)
    case PrimaryPhone => StringValue(m.primaryphone)
    case DefaultTarget => StringValue(m.defaultcommunication)
    case FidoEnabled => StringValue(m.fidokeysenabled)
    case TwoStepVerify => StringValue(m.twostepverification)
    case DomainId => if m.did.Some? then Some(JsonNumber(m.did.value)) else None
  }

  /** No field is null. */
  predicate Complete(m: Metadata)
  {
    && m.username.Some? && m.userdn.Some? && m.firstname.Some? && m.lastname.Some?
    && m.uid.Some? && m.emailaddresses.Some? && m.primaryemail.Some? && m.phonenumbers.Some?
    && m.primaryphone.Some? && m.defaultcommunication.Some? && m.fidokeysenabled.Some?
    && m.twostepverification.Some? && m.did.Some?
  }

  /** The step getJSONObject takes first: a null defaultcommunication becomes the empty string. */
  function Normalized(m: Metadata): (r: Metadata)
    ensures r == m.(defaultcommunication := Some(m.defaultcommunication.GetOr("")))
  {
    if m.defaultcommunication.None? then m.(defaultcommunication := Some("")) else m
  }

  lemma NormalizedIdempotent(m: Metadata)
    ensures Normalized(Normalized(m)) == Normalized(m)
  {
  }

  /**
   * The members getJSONObject adds, in order. None stands for the
   * NullPointerException a null field raises: the builder refuses a null
   * string, and a null did fails when it is unboxed for add(String, long).
   */
  function Entries(m: Metadata): (r: Option<JsonObject>)
    ensures r.Some? <==> Complete(m)
    ensures r.Some? ==> |r.value| == |KeyOrder|
    ensures r.Some? ==> forall i :: 0 <= i < |KeyOrder| ==>
      r.value[i].0 == KeyOrder[i] && FieldOf(m, KeyOrder[i]) == Some(r.value[i].1)
  {
    if !Complete(m) then None
    else
      Some([(CommonName, JsonString(m.username.value)),
            (Dn, JsonString(m.userdn.value)),
            (Uid, JsonString(m.uid.value)),
            (FName, JsonString(m.firstname.value)),
            (Surname, JsonString(m.lastname.value)),
            (EmailAddresses, JsonString(m.emailaddresses.value)),
            (PrimaryEmail, JsonString(m.primaryemail.value)),
            (PhoneNumbers, JsonString(m.phonenumbers.value)),
            (PrimaryPhone, JsonString(m.primaryphone.value)),
            (DefaultTarget, JsonString(m.defaultcommunication.value)),
            (FidoEnabled, JsonString(m.fidokeysenabled.value)),
            (TwoStepVerify, JsonString(m.twostepverification.value)),
            (DomainId, JsonNumber(m.did.value))])
  }

  /** The value of the first member of obj named k, as JsonObject.get reads it. */
  function Get(obj: JsonObject, k: Key): Option<JsonValue>
  {
    if obj == [] then None else if obj[0].0 == k then Some(obj[0].1) else Get(obj[1..], k)
  }

  lemma {:induction false} GetAt(obj: JsonObject, i: nat, k: Key)
    requires i < |obj| && obj[i].0 == k
    requires forall j :: 0 <= j < i ==> obj[j].0 != k
    ensures Get(obj, k) == Some(obj[i].1)
  {
    if i > 0 {
      GetAt(obj[1..], i - 1, k);
    }
  }

  /** Every key of the projection reads back the field it was built from. */
  lemma EntriesLookup(m: Metadata, k: Key)
    requires Complete(m)
    ensures Get(Entries(m).value, k) == FieldOf(m, k)
  {
    var obj := Entries(m).value;
    var i := KeyIndex(k);
    GetAt(obj, i, k);
  }

  /** After normalisation the projection exists exactly when no field other than defaultcommunication is null. */
  lemma NormalizedEntriesDefined(m: Metadata)
    ensures Entries(Normalized(m)).Some? <==> Complete(m.(defaultcommunication := Some("")))
    ensures Entries(Normalized(m)).Some? ==>
      Get(Entries(Normalized(m)).value, DefaultTarget) == Some(JsonString(m.defaultcommunication.GetOr("")))
  {
    if Entries(Normalized(m)).Some? {
      EntriesLookup(Normalized(m), DefaultTarget);
    }
  }

  // ---------------------------------------------------------------------
  // The text form
  // ---------------------------------------------------------------------

  /** A field's text in string concatenation: "null" for null. */
  function Show(field: Option<string>): string
  {
    if field.Some? then field.value else "null"
  }

  function ShowLong(field: Option<Long>): string
  {
    if field.Some? then JavaText.LongString(field.value as int) else "null"
  }

  /** The labels of the text form's lines, in order; primaryphone has none. */
  const Labels: seq<string> :=
    ["username", "userdn", "firstname", "lastname", "uid", "emailaddresses", "primaryemail",
     "phonenumbers", "defaulttarget", "fidokeysenabled", "twostepverification", "did"]

  /** The values the text form prints, in the order of Labels. */
  function Shown(m: Metadata): (values: seq<string>)
    ensures |values| == |Labels|
    ensures values[8] == Show(m.defaultcommunication) && Labels[8] == "defaulttarget"
  {
    [Show(m.username), Show(m.userdn), Show(m.firstname), Show(m.lastname), Show(m.uid),
     Show(m.emailaddresses), Show(m.primaryemail), Show(m.phonenumbers),
     Show(m.defaultcommunication), Show(m.fidokeysenabled), Show(m.twostepverification),
     ShowLong(m.did)]
  }

  /** The text form leaves primaryphone out: changing it does not change what is printed. */
  lemma ShownIgnoresPrimaryPhone(m: Metadata, phone: Option<string>)
    ensures Shown(m.(primaryphone := phone)) == Shown(m)
  {
  }

  /** The body of one line: name, " = ", value, after a four-space indent. */
  function LineBody(name: string, value: string): (body: string)
    ensures '\n' !in name && '\n' !in value ==> '\n' !in body
  {
    "    " + name + " = " + value
  }

  /** One line of the text form, opened by a line feed. */
  function Line(name: string, value: string): string
  {
    "\n" + LineBody(name, value)
  }

  /** The first n labels and values, each as a line of its own, in order. */
  function Render(labels: seq<string>, values: seq<string>, n: nat): string
    requires n <= |labels| == |values|
  {
    if n == 0 then "" else Render(labels, values, n - 1) + Line(labels[n - 1], values[n - 1])
  }

  /** The bodies of the first n lines. */
  function Bodies(labels: seq<string>, values: seq<string>, n: nat): (bodies: seq<string>)
    requires n <= |labels| == |values|
  {
    seq(n, i requires 0 <= i < n => LineBody(labels[i], values[i]))
  }

  /** Rendering after a first piece is joining that piece and the line bodies with line feeds. */
  lemma {:induction false} RenderIsJoin(first: string, labels: seq<string>, values: seq<string>, n: nat)
    requires n <= |labels| == |values|
    ensures first + Render(labels, values, n) == JavaText.Join([first] + Bodies(labels, values, n), '\n')
  {
    if n > 0 {
      RenderIsJoin(first, labels, values, n - 1);
      var body := LineBody(labels[n - 1], values[n - 1]);
      assert [first] + Bodies(labels, values, n) == ([first] + Bodies(labels, values, n - 1)) + [body];
      JavaText.JoinSnoc([first] + Bodies(labels, values, n - 1), body, '\n');
    }
  }

  /** The pieces the rendered text is cut into: an empty one, then the line bodies. */
  function Pieces(labels: seq<string>, values: seq<string>): (pieces: seq<string>)
    requires |labels| == |values|
    requires forall i :: 0 <= i < |labels| ==> '\n' !in labels[i] && '\n' !in values[i]
    ensures forall i :: 0 <= i < |pieces| ==> '\n' !in pieces[i]
  {
    var bodies := Bodies(labels, values, |labels|);
    forall i | 0 <= i < |bodies| ensures '\n' !in bodies[i] {
      assert bodies[i] == LineBody(labels[i], values[i]);
    }
    [""] + bodies
  }

  /**
   * Cut at its line feeds, the rendered text gives an empty first piece and
   * then one "    label = value" line per label, in order, provided no label
   * or value holds a line feed.
   */
  lemma RenderLines(labels: seq<string>, values: seq<string>)
    requires |labels| == |values|
    requires forall i :: 0 <= i < |labels| ==> '\n' !in labels[i] && '\n' !in values[i]
    ensures JavaText.Split(Render(labels, values, |labels|), '\n') == [""] + Bodies(labels, values, |labels|)
  {
    var pieces := Pieces(labels, values);
    JavaText.SplitOfJoin(pieces, '\n');
    RenderIsJoin("", labels, values, |labels|);
    assert "" + Render(labels, values, |labels|) == Render(labels, values, |labels|);
  }

  /** No label holds a line feed. */
  lemma LabelsFreeOfLineFeeds()
    ensures forall i :: 0 <= i < |Labels| ==> '\n' !in Labels[i]
  {
  }


  /** The text form of m cut at its line feeds: an empty piece, then the twelve labelled lines. */
  lemma TextLines(m: Metadata)
    requires forall i :: 0 <= i < |Labels| ==> '\n' !in Shown(m)[i]
    ensures JavaText.Split(Render(Labels, Shown(m), |Labels|), '\n') == [""] + Bodies(Labels, Shown(m), |Labels|)
  {
    LabelsFreeOfLineFeeds();
    RenderLines(Labels, Shown(m));
  }

  // ---------------------------------------------------------------------
  // The object
  // ---------------------------------------------------------------------

  class LDAPUserMetadata {
    var username: Option<string>
    var userdn: Option<string>
    var firstname: Option<string>
    var lastname: Option<string>
    var uid: Option<string>
    var emailaddresses: Option<string>
    var primaryemail: Option<string>
    var phonenumbers: Option<string>
    var primaryphone: Option<string>
    var defaultcommunication: Option<string>
    var fidokeysenabled: Option<string>
    var twostepverification: Option<string>
    var did: Option<Long>

    /** The object's fields as one value. */
    function Record(): Metadata
      reads this
    {
      Metadata(username, userdn, firstname, lastname, uid, emailaddresses, primaryemail,
               phonenumbers, primaryphone, defaultcommunication, fidokeysenabled,
               twostepverification, did)
    }

    /** Every field from its argument; defaultcomm goes to defaultcommunication. */
    constructor (username: Option<string>, userdn: Option<string>, firstname: Option<string>,
                 lastname: Option<string>, uid: Option<string>, emailaddresses: Option<string>,
                 primaryemail: Option<string>, phonenumbers: Option<string>,
                 primaryphone: Option<string>, defaultcomm: Option<string>,
                 fidokeysenabled: Option<string>, twostepverification: Option<string>,
                 did: Option<Long>)
      ensures Record().username == username && Record().userdn == userdn
      ensures Record().firstname == firstname && Record().lastname == lastname
      ensures Record().uid == uid && Record().emailaddresses == emailaddresses
      ensures Record().primaryemail == primaryemail && Record().phonenumbers == phonenumbers
      ensures Record().primaryphone == primaryphone && Record().defaultcommunication == defaultcomm
      ensures Record().fidokeysenabled == fidokeysenabled
      ensures Record().twostepverification == twostepverification && Record().did == did
    {
      this.username := username;
      this.userdn := userdn;
      this.uid := uid;
      this.firstname := firstname;
      this.lastname := lastname;
      this.emailaddresses := emailaddresses;
      this.primaryemail := primaryemail;
      this.phonenumbers := phonenumbers;
      this.primaryphone := primaryphone;
      this.defaultcommunication := defaultcomm;
      this.fidokeysenabled := fidokeysenabled;
      this.twostepverification := twostepverification;
      this.did := did;
    }

    /** The directory names only; the other eight fields stay null. */
    constructor FromNames(commonname: Option<string>, principal: Option<string>,
                          fname: Option<string>, surname: Option<string>, uid: Option<string>)
      ensures Record() == Metadata(commonname, principal, fname, surname, uid,
                                   None, None, None, None, None, None, None, None)
    {
      username := commonname;
      userdn := principal;
      this.uid := uid;
      firstname := fname;
      lastname := surname;
      emailaddresses := None;
      primaryemail := None;
      phonenumbers := None;
      primaryphone := None;
      defaultcommunication := None;
      fidokeysenabled := None;
      twostepverification := None;
      did := None;
    }

    /**
     * Normalises defaultcommunication (null becomes "", for good) and then
     * returns the thirteen members of the JSON object.
     */
    method GetJSONObject() returns (json: Option<JsonObject>)
      modifies this`defaultcommunication
      ensures Record() == Normalized(old(Record()))
      ensures json == Entries(Record())
    {
      if defaultcommunication.None? {
        defaultcommunication := Some("");
      }
      json := Entries(Record());
    }

    /**
     * The text form: the twelve labelled lines of Labels and Shown, in order,
     * each starting with a line feed. Cut at its line feeds it gives an empty
     * piece and then one "    label = value" line per label, when no printed
     * value holds a line feed.
     */
    function ToString(): (s: string)
      reads this
      ensures s == JavaText.Join([""] + Bodies(Labels, Shown(Record()), |Labels|), '\n')
      ensures (forall i :: 0 <= i < |Labels| ==> '\n' !in Shown(Record())[i]) ==>
        JavaText.Split(s, '\n') == [""] + Bodies(Labels, Shown(Record()), |Labels|)
    {
      var m := Record();
      var text := Render(Labels, Shown(m), |Labels|);
      assert text == JavaText.Join([""] + Bodies(Labels, Shown(m), |Labels|), '\n') by {
        RenderIsJoin("", Labels, Shown(m), |Labels|);
        assert "" + text == text;
      }
      assert (forall i :: 0 <= i < |Labels| ==> '\n' !in Shown(m)[i]) ==>
        JavaText.Split(text, '\n') == [""] + Bodies(Labels, Shown(m), |Labels|) by {
        if forall i :: 0 <= i < |Labels| ==> '\n' !in Shown(m)[i] {
          TextLines(m);
        }
      }
      text
    }

    // Getters and setters: each setter changes its own field only.

    function GetUsername(): (r: Option<string>) reads this ensures r == Record().username { username }
    method SetUsername(username: Option<string>)
      modifies this`username
      ensures Record() == old(Record()).(username := username)
    { this.username := username; }

    function GetUserdn(): (r: Option<string>) reads this ensures r == Record().userdn { userdn }
    method SetUserdn(userdn: Option<string>)
      modifies this`userdn
      ensures Record() == old(Record()).(userdn := userdn)
    { this.userdn := userdn; }

    function GetFirstname(): (r: Option<string>) reads this ensures r == Record().firstname { firstname }
    method SetFirstname(firstname: Option<string>)
      modifies this`firstname
      ensures Record() == old(Record()).(firstname := firstname)
    { this.firstname := firstname; }

    function GetLastname(): (r: Option<string>) reads this ensures r == Record().lastname { lastname }
    method SetLastname(lastname: Option<string>)
      modifies this`lastname
      ensures Record() == old(Record()).(lastname := lastname)
    { this.lastname := lastname; }

    function GetEmailaddresses(): (r: Option<string>) reads this ensures r == Record().emailaddresses { emailaddresses }
    method SetEmailaddresses(emailaddresses: Option<string>)
      modifies this`emailaddresses
      ensures Record() == old(Record()).(emailaddresses := emailaddresses)
    { this.emailaddresses := emailaddresses; }

    function GetPrimaryemail(): (r: Option<string>) reads this ensures r == Record().primaryemail { primaryemail }
    method SetPrimaryemail(primaryemail: Option<string>)
      modifies this`primaryemail
      ensures Record() == old(Record()).(primaryemail := primaryemail)
    { this.primaryemail := primaryemail; }

    function GetPhonenumbers(): (r: Option<string>) reads this ensures r == Record().phonenumbers { phonenumbers }
    method SetPhonenumbers(phonenumbers: Option<string>)
      modifies this`phonenumbers
      ensures Record() == old(Record()).(phonenumbers := phonenumbers)
    { this.phonenumbers := phonenumbers; }

    function GetPrimaryphone(): (r: Option<string>) reads this ensures r == Record().primaryphone { primaryphone }
    method SetPrimaryphone(primaryphone: Option<string>)
      modifies this`primaryphone
      ensures Record() == old(Record()).(primaryphone := primaryphone)
    { this.primaryphone := primaryphone; }

    function GetDefaultcommunication(): (r: Option<string>) reads this ensures r == Record().defaultcommunication { defaultcommunication }
    method SetDefaultcommunication(defaultcommunication: Option<string>)
      modifies this`defaultcommunication
      ensures Record() == old(Record()).(defaultcommunication := defaultcommunication)
    { this.defaultcommunication := defaultcommunication; }

    function GetFidokeysenabled(): (r: Option<string>) reads this ensures r == Record().fidokeysenabled { fidokeysenabled }
    method SetFidokeysenabled(fidokeysenabled: Option<string>)
      modifies this`fidokeysenabled
      ensures Record() == old(Record()).(fidokeysenabled := fidokeysenabled)
    { this.fidokeysenabled := fidokeysenabled; }

    function GetTwostepverification(): (r: Option<string>) reads this ensures r == Record().twostepverification { twostepverification }
    method SetTwostepverification(twostepverification: Option<string>)
      modifies this`twostepverification
      ensures Record() == old(Record()).(twostepverification := twostepverification)
    { this.twostepverification := twostepverification; }

    function GetDid(): (r: Option<Long>) reads this ensures r == Record().did { did }
    method SetDid(did: Option<Long>)
      modifies this`did
      ensures Record() == old(Record()).(did := did)
    { this.did := did; }
  }
}
