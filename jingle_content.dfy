/**
 * The Jingle `content` element (section 7.3 of XEP-0166): an attribute store
 * keyed by `creator`, `disposition`, `name` and `senders`, and the decoding of
 * the two enumerated attributes from their stored strings.
 *
 * The attribute store of the element's base class is a map from attribute
 * name to the string form of the value.  Storing an absent (null) value
 * removes the key; reading a missing key yields an absent value.
 */
module JingleContent {
  import opened Wrappers

  type Attributes = map<string, string>

  const CREATOR_ATTR_NAME := "creator"
  const DISPOSITION_ATTR_NAME := "disposition"
  const NAME_ATTR_NAME := "name"
  const SENDERS_ATTR_NAME := "senders"

  /** Which party originally generated the content type. */
  datatype CreatorEnum = CreatorInitiator | CreatorResponder

  /** Which parties will be generating content. */
  datatype SendersEnum = SendersInitiator | SendersNone | SendersResponder | SendersBoth

  /** Why Java's `Enum.valueOf` refused a name. */
  datatype ValueOfError =
    | NameIsNull                     // valueOf(null): NullPointerException
    | NoEnumConstant(name: string)   // IllegalArgumentException

  /** The member's Java name, which is also what `toString` returns. */
  function CreatorName(c: CreatorEnum): string
  {
    match c
    case CreatorInitiator => "initiator"
    case CreatorResponder => "responder"
  }

  function SendersName(s: SendersEnum): string
  {
    match s
    case SendersInitiator => "initiator"
    case SendersNone => "none"
    case SendersResponder => "responder"
    case SendersBoth => "both"
  }

  /** `CreatorEnum.valueOf`: exact, case-sensitive match on a member name. */
  function ValueOfCreator(s: Option<string>): (r: Result<CreatorEnum, ValueOfError>)
    ensures r.Success? <==> s.Some? && s.value in {"initiator", "responder"}
    ensures r.Success? ==> s == Some(CreatorName(r.value))
    ensures s.None? ==> r == Failure(NameIsNull)
    ensures s.Some? && r.Failure? ==> r.error == NoEnumConstant(s.value)
  {
    match s
    case None => Failure(NameIsNull)
    case Some(n) =>
      if n == CreatorName(CreatorInitiator) then Success(CreatorInitiator)
      else if n == CreatorName(CreatorResponder) then Success(CreatorResponder)
      else Failure(NoEnumConstant(n))
  }

  /** `SendersEnum.valueOf`: exact, case-sensitive match on a member name. */
  function ValueOfSenders(s: Option<string>): (r: Result<SendersEnum, ValueOfError>)
    ensures r.Success? <==> s.Some? && s.value in {"initiator", "none", "responder", "both"}
    ensures r.Success? ==> s == Some(SendersName(r.value))
    ensures s.None? ==> r == Failure(NameIsNull)
    ensures s.Some? && r.Failure? ==> r.error == NoEnumConstant(s.value)
  {
    match s
    case None => Failure(NameIsNull)
    case Some(n) =>
      if n == SendersName(SendersInitiator) then Success(SendersInitiator)
      else if n == SendersName(SendersNone) then Success(SendersNone)
      else if n == SendersName(SendersResponder) then Success(SendersResponder)
      else if n == SendersName(SendersBoth) then Success(SendersBoth)
      else Failure(NoEnumConstant(n))
  }

  /** Decoding a member's own name gives the member back. */
  lemma CreatorNameRoundTrip(c: CreatorEnum)
    ensures ValueOfCreator(Some(CreatorName(c))) == Success(c)
  {
  }

  lemma SendersNameRoundTrip(s: SendersEnum)
    ensures ValueOfSenders(Some(SendersName(s))) == Success(s)
  {
  }

  /** Names are decoded case-sensitively: the capitalised form is not a member. */
  lemma DecodingIsCaseSensitive()
    ensures ValueOfCreator(Some("Initiator")) == Failure(NoEnumConstant("Initiator"))
    ensures ValueOfSenders(Some("BOTH")) == Failure(NoEnumConstant("BOTH"))
  {
  }

  /** The base class's `getAttributeAsString`: absent when the key is missing. */
  function GetAttributeAsString(a: Attributes, key: string): Option<string>
  {
    if key in a then Some(a[key]) else None
  }

  /** The base class's `setAttribute`: store a present value, drop the key for an absent one. */
  function SetAttribute(a: Attributes, key: string, value: Option<string>): (r: Attributes)
    ensures GetAttributeAsString(r, key) == value
    ensures forall k :: k != key ==> GetAttributeAsString(r, k) == GetAttributeAsString(a, k)
    ensures r.Keys <= a.Keys + {key}
  {
    match value
    case Some(v) => a[key := v]
    case None => a - {key}
  }

  function GetCreator(a: Attributes): (r: Result<CreatorEnum, ValueOfError>)
    ensures r.Success? <==> CREATOR_ATTR_NAME in a && a[CREATOR_ATTR_NAME] in {"initiator", "responder"}
    ensures r.Success? ==> a[CREATOR_ATTR_NAME] == CreatorName(r.value)
    ensures CREATOR_ATTR_NAME !in a ==> r == Failure(NameIsNull)
    ensures CREATOR_ATTR_NAME in a && r.Failure? ==> r.error == NoEnumConstant(a[CREATOR_ATTR_NAME])
  {
    ValueOfCreator(GetAttributeAsString(a, CREATOR_ATTR_NAME))
  }

  /** `getDisposition`: the stored string, absent (not "session") when unset. */
  function GetDisposition(a: Attributes): (r: Option<string>)
    ensures r.Some? <==> DISPOSITION_ATTR_NAME in a
    ensures r.Some? ==> r.value == a[DISPOSITION_ATTR_NAME]
    ensures DISPOSITION_ATTR_NAME !in a ==> r == None
  {
    GetAttributeAsString(a, DISPOSITION_ATTR_NAME)
  }

  /** `getName`: the stored string, absent when unset. */
  function GetName(a: Attributes): (r: Option<string>)
    ensures r.Some? <==> NAME_ATTR_NAME in a
    ensures r.Some? ==> r.value == a[NAME_ATTR_NAME]
  {
    GetAttributeAsString(a, NAME_ATTR_NAME)
  }

  function GetSenders(a: Attributes): (r: Result<SendersEnum, ValueOfError>)
    ensures r.Success? <==> SENDERS_ATTR_NAME in a && a[SENDERS_ATTR_NAME] in {"initiator", "none", "responder", "both"}
    ensures r.Success? ==> a[SENDERS_ATTR_NAME] == SendersName(r.value)
    ensures SENDERS_ATTR_NAME !in a ==> r == Failure(NameIsNull)
    ensures SENDERS_ATTR_NAME in a && r.Failure? ==> r.error == NoEnumConstant(a[SENDERS_ATTR_NAME])
  {
    ValueOfSenders(GetAttributeAsString(a, SENDERS_ATTR_NAME))
  }

  /** `setCreator` on the attribute store: stores the member's name under `creator` only. */
  function WithCreator(a: Attributes, c: CreatorEnum): (r: Attributes)
    ensures GetCreator(r) == Success(c)
    ensures GetDisposition(r) == GetDisposition(a) && GetName(r) == GetName(a) && GetSenders(r) == GetSenders(a)
    ensures forall k :: k != CREATOR_ATTR_NAME ==> GetAttributeAsString(r, k) == GetAttributeAsString(a, k)
  {
    SetAttribute(a, CREATOR_ATTR_NAME, Some(CreatorName(c)))
  }

  /** `setDisposition` on the attribute store; an absent value removes the attribute. */
  function WithDisposition(a: Attributes, d: Option<string>): (r: Attributes)
    ensures GetDisposition(r) == d
    ensures GetCreator(r) == GetCreator(a) && GetName(r) == GetName(a) && GetSenders(r) == GetSenders(a)
    ensures forall k :: k != DISPOSITION_ATTR_NAME ==> GetAttributeAsString(r, k) == GetAttributeAsString(a, k)
  {
    SetAttribute(a, DISPOSITION_ATTR_NAME, d)
  }

  /** `setName` on the attribute store; an absent value removes the attribute. */
  function WithName(a: Attributes, n: Option<string>): (r: Attributes)
    ensures GetName(r) == n
    ensures GetCreator(r) == GetCreator(a) && GetDisposition(r) == GetDisposition(a) && GetSenders(r) == GetSenders(a)
    ensures forall k :: k != NAME_ATTR_NAME ==> GetAttributeAsString(r, k) == GetAttributeAsString(a, k)
  {
    SetAttribute(a, NAME_ATTR_NAME, n)
  }

  /** `setSenders` on the attribute store: stores `senders.toString()` under `senders` only. */
  function WithSenders(a: Attributes, s: SendersEnum): (r: Attributes)
    ensures GetSenders(r) == Success(s)
    ensures GetCreator(r) == GetCreator(a) && GetDisposition(r) == GetDisposition(a) && GetName(r) == GetName(a)
    ensures forall k :: k != SENDERS_ATTR_NAME ==> GetAttributeAsString(r, k) == GetAttributeAsString(a, k)
  {
    SetAttribute(a, SENDERS_ATTR_NAME, Some(SendersName(s)))
  }

  /** The attributes left by the four-argument constructor. */
  function NewContent(creator: CreatorEnum, disposition: Option<string>, name: Option<string>,
                      senders: SendersEnum): (a: Attributes)
    ensures GetCreator(a) == Success(creator)
    ensures GetDisposition(a) == disposition
    ensures GetName(a) == name
    ensures GetSenders(a) == Success(senders)
    ensures a.Keys <= {CREATOR_ATTR_NAME, DISPOSITION_ATTR_NAME, NAME_ATTR_NAME, SENDERS_ATTR_NAME}
  {
    var a0 := SetAttribute(map[], CREATOR_ATTR_NAME, Some(CreatorName(creator)));
    var a1 := SetAttribute(a0, DISPOSITION_ATTR_NAME, disposition);
    var a2 := SetAttribute(a1, NAME_ATTR_NAME, name);
    SetAttribute(a2, SENDERS_ATTR_NAME, Some(SendersName(senders)))
  }

  /** The attributes left by the two-argument constructor: no disposition, no senders. */
  function NewContentWithName(creator: CreatorEnum, name: Option<string>): (a: Attributes)
    ensures GetCreator(a) == Success(creator)
    ensures GetName(a) == name
    ensures GetDisposition(a) == None
    ensures GetSenders(a) == Failure(NameIsNull)
    ensures a.Keys <= {CREATOR_ATTR_NAME, NAME_ATTR_NAME}
  {
    var a0 := SetAttribute(map[], CREATOR_ATTR_NAME, Some(CreatorName(creator)));
    SetAttribute(a0, NAME_ATTR_NAME, name)
  }

  /** One `content` element; the constructors and setters update its attribute store in place. */
  class ContentPacketExtension {
    var attributes: Attributes

    /** The no-argument constructor: an element with no attributes. */
    constructor Empty()
      ensures attributes == map[]
    {
      attributes := map[];
    }

    constructor (creator: CreatorEnum, disposition: Option<string>, name: Option<string>,
                 senders: SendersEnum)
      ensures attributes == NewContent(creator, disposition, name, senders)
    {
      var a := map[];
      a := SetAttribute(a, CREATOR_ATTR_NAME, Some(CreatorName(creator)));
      a := SetAttribute(a, DISPOSITION_ATTR_NAME, disposition);
      a := SetAttribute(a, NAME_ATTR_NAME, name);
      a := SetAttribute(a, SENDERS_ATTR_NAME, Some(SendersName(senders)));
      attributes := a;
    }

    constructor WithCreatorAndName(creator: CreatorEnum, name: Option<string>)
      ensures attributes == NewContentWithName(creator, name)
    {
      var a := map[];
      a := SetAttribute(a, CREATOR_ATTR_NAME, Some(CreatorName(creator)));
      a := SetAttribute(a, NAME_ATTR_NAME, name);
      attributes := a;
    }

    method SetCreator(c: CreatorEnum)
      modifies this
      ensures attributes == WithCreator(old(attributes), c)
    {
      attributes := SetAttribute(attributes, CREATOR_ATTR_NAME, Some(CreatorName(c)));
    }

    method SetDisposition(d: Option<string>)
      modifies this
      ensures attributes == WithDisposition(old(attributes), d)
    {
      attributes := SetAttribute(attributes, DISPOSITION_ATTR_NAME, d);
    }

    method SetName(n: Option<string>)
      modifies this
      ensures attributes == WithName(old(attributes), n)
    {
      attributes := SetAttribute(attributes, NAME_ATTR_NAME, n);
    }

    method SetSenders(s: SendersEnum)
      modifies this
      ensures attributes == WithSenders(old(attributes), s)
    {
      attributes := SetAttribute(attributes, SENDERS_ATTR_NAME, Some(SendersName(s)));
    }
  }
}
