/**
  The typed element accessors of XmlSerializable: an extension of the AEXML element node
  that reads validated scalars out of a node (string, integer, boolean, and their optional
  forms governed by the `isNil` marker attribute) and appends value-carrying children.

  The node is modelled by its name, optional text value and string attributes, which the
  accessors never change, and by its children, which the writers append to in place.
 */
module XmlSerializable {
  import opened Wrappers
  import opened IntText

  /** `AEXMLError`; every accessor throws `.Common("")`. */
  datatype AEXMLError = Common(message: string)

  const Thrown: AEXMLError := Common("")

  /** AEXML's reserved name for the "not found / invalid" element. */
  const ErrorElementName: string := "AEXMLError"

  /** The nil marker attribute of an optional value: "1" absent, "0" present. */
  const IsNilKey: string := "isNil"

  /** The text of the detached error element `addValueChild` returns for an unsupported value. */
  const UnsupportedMessage: string := "Value type must be Int, Double, String, Bool or NSDate."

  /** `XmlCommon.getArrItemStr`: the tag of a sequence item; a real name, never the sentinel. */
  function GetArrItemStr(): (tag: string)
    ensures |tag| > 0 && tag != ErrorElementName
  {
    "arrItem"
  }

  /** The runtime kind of the `Any` handed to `addValueChild`. */
  datatype AnyValue =
    | IntValue(i: Int64)
    | StringValue(s: string)
    | BoolValue(b: bool)
    | OtherValue  // any kind the writer has no case for

  /** The text `addValueChild` writes for a value, or None when the kind is unsupported. */
  function XmlText(v: AnyValue): Option<string> {
    match v
    case IntValue(i) => Some(FormatInt(i))
    case StringValue(s) => Some(s)
    case BoolValue(b) => Some(if b then "true" else "false")
    case OtherValue => None
  }

  /** `lowercaseString`, on the ASCII letters. */
  function LowerAscii(s: string): string {
    seq(|s|, i requires 0 <= i < |s| => if 'A' <= s[i] <= 'Z' then (s[i] as int + 32) as char else s[i])
  }

  /**
    `LowerAscii(t)` equals a word of lower-case letters exactly when `t` has the word's
    length and each character is the word's letter in lower or upper case.
   */
  lemma {:induction false} LowerAsciiMatchesWord(t: string, w: string)
    requires forall i :: 0 <= i < |w| ==> 'a' <= w[i] <= 'z'
    ensures LowerAscii(t) == w <==>
      |t| == |w| && forall i :: 0 <= i < |t| ==> t[i] == w[i] || t[i] as int == w[i] as int - 32
  {
    if |t| == |w| && forall i :: 0 <= i < |t| ==> t[i] == w[i] || t[i] as int == w[i] as int - 32 {
      assert forall i :: 0 <= i < |t| ==> LowerAscii(t)[i] == w[i];
    }
  }

  /** The texts the boolean getter reads as true: "true" in any case, or an integer equal to 1. */
  predicate ReadsAsTrue(t: string) {
    LowerAscii(t) == "true" || ParseInt(t) == Some(1)
  }

  /** The texts the boolean getter reads as false: "false" in any case, or an integer equal to 0. */
  predicate ReadsAsFalse(t: string) {
    LowerAscii(t) == "false" || ParseInt(t) == Some(0)
  }

  /** No text is read both as true and as false, so the boolean getter is unambiguous. */
  lemma TrueFalseTextsDisjoint(t: string)
    ensures !(ReadsAsTrue(t) && ReadsAsFalse(t))
  {
    var lower := LowerAscii(t);
    if lower == "true" || lower == "false" {
      assert lower[|t| - 1] == 'e';
      NonDigitEndIsNotInt(t);
    }
  }

  /** An XML element node (`AEXMLElement`) together with the accessors the extension adds. */
  class AEXMLElement {
    const name: string
    const value: Option<string>
    const attributes: map<string, string>
    var children: seq<AEXMLElement>

    constructor (name: string, value: Option<string>, attributes: map<string, string>)
      ensures this.name == name && this.value == value && this.attributes == attributes
      ensures children == []
    {
      this.name := name;
      this.value := value;
      this.attributes := attributes;
      children := [];
    }

    /** `available`: the node is real data, not the "not found" sentinel. */
    predicate Available() {
      name != ErrorElementName
    }

    /** `element`: the node itself when it is available, nil otherwise. */
    function Element(): (r: Option<AEXMLElement>)
      ensures r == Some(this) <==> name != ErrorElementName
      ensures r == None <==> name == ErrorElementName
    {
      if Available() then Some(this) else None
    }

    /** The nil marker attribute is present with text `m`. */
    predicate HasNilMarker(m: string) {
      IsNilKey in attributes && attributes[IsNilKey] == m
    }

    /** `getStringVal`: the stored text, or an error on the sentinel or on a node without text. */
    function GetStringVal(): (r: Result<string, AEXMLError>)
      ensures r.Success? <==> name != ErrorElementName && value.Some?
      ensures r.Success? ==> r.value == value.value
      ensures r.Failure? ==> r.error == Thrown
    {
      if !Available() then Failure(Thrown)
      else if value.None? then Failure(Thrown)
      else Success(value.value)
    }

    /** `getIntVal`: the text read as a decimal `Int`. */
    function GetIntVal(): (r: Result<Int64, AEXMLError>)
      ensures GetStringVal().Failure? ==> r == Failure(Thrown)
      ensures GetStringVal().Success? ==>
        var t := GetStringVal().value;
        (r.Success? <==> IsIntLiteral(t) && IntMin <= LiteralValue(t) <= IntMax) &&
        (r.Success? ==> r.value as int == LiteralValue(t)) &&
        (r.Failure? ==> r.error == Thrown)
    {
      match GetStringVal()
      case Failure(e) => Failure(e)
      case Success(t) =>
        match ParseInt(t)
        case None => Failure(Thrown)
        case Some(n) => Success(n)
    }

    /**
      `getBoolVal` as the source writes it: both the true texts and the false texts
      return `true`, so a successful read never yields `false`.
     */
    function GetBoolValAsWritten(): (r: Result<bool, AEXMLError>)
      ensures GetStringVal().Failure? ==> r == Failure(Thrown)
      ensures GetStringVal().Success? ==>
        var t := GetStringVal().value;
        (r.Success? <==> ReadsAsTrue(t) || ReadsAsFalse(t)) && (r.Failure? ==> r.error == Thrown)
      ensures r.Success? ==> r.value
    {
      match GetStringVal()
      case Failure(e) => Failure(e)
      case Success(t) =>
        if ReadsAsTrue(t) then Success(true)
        else if ReadsAsFalse(t) then Success(true)
        else Failure(Thrown)
    }

    /** `getBoolVal` as evidently intended: the false texts yield `false`. */
    function GetBoolVal(): (r: Result<bool, AEXMLError>)
      ensures GetStringVal().Failure? ==> r == Failure(Thrown)
      ensures GetStringVal().Success? ==>
        var t := GetStringVal().value;
        (r == Success(true) <==> ReadsAsTrue(t)) &&
        (r == Success(false) <==> ReadsAsFalse(t)) &&
        (r.Failure? <==> !ReadsAsTrue(t) && !ReadsAsFalse(t))
      ensures r.Failure? ==> r.error == Thrown
    {
      match GetStringVal()
      case Failure(e) => Failure(e)
      case Success(t) =>
        TrueFalseTextsDisjoint(t);
        if ReadsAsTrue(t) then Success(true)
        else if ReadsAsFalse(t) then Success(false)
        else Failure(Thrown)
    }

    /** `optIsNil`: the tri-state nil marker; a missing or malformed marker is an error. */
    function OptIsNil(): (r: Result<bool, AEXMLError>)
      ensures r == Success(true) <==> HasNilMarker("1")
      ensures r == Success(false) <==> HasNilMarker("0")
      ensures r.Failure? ==> r.error == Thrown
    {
      if IsNilKey in attributes && attributes[IsNilKey] == "1" then Success(true)
      else if IsNilKey in attributes && attributes[IsNilKey] == "0" then Success(false)
      else Failure(Thrown)
    }

    /** `getStringOptVal`: nil when marked nil, else `getStringVal`. */
    function GetStringOptVal(): (r: Result<Option<string>, AEXMLError>)
      ensures HasNilMarker("1") ==> r == Success(None)
      ensures HasNilMarker("0") ==>
        (r.Success? <==> GetStringVal().Success?) &&
        (r.Success? ==> r.value == Some(GetStringVal().value))
      ensures r.Failure? ==> r.error == Thrown
      ensures !HasNilMarker("1") && !HasNilMarker("0") ==> r.Failure?
    {
      match OptIsNil()
      case Failure(e) => Failure(e)
      case Success(isNil) =>
        if isNil then Success(None)
        else
          match GetStringVal()
          case Failure(e) => Failure(e)
          case Success(s) => Success(Some(s))
    }

    /** `getBoolOptVal` as evidently intended: nil when marked nil, else the corrected boolean getter. */
    function GetBoolOptVal(): (r: Result<Option<bool>, AEXMLError>)
      ensures HasNilMarker("1") ==> r == Success(None)
      ensures HasNilMarker("0") ==>
        (r.Success? <==> GetBoolVal().Success?) &&
        (r.Success? ==> r.value == Some(GetBoolVal().value))
      ensures r.Failure? ==> r.error == Thrown
      ensures !HasNilMarker("1") && !HasNilMarker("0") ==> r.Failure?
    {
      match OptIsNil()
      case Failure(e) => Failure(e)
      case Success(isNil) =>
        if isNil then Success(None)
        else
          match GetBoolVal()
          case Failure(e) => Failure(e)
          case Success(b) => Success(Some(b))
    }

    /**
      `getBoolOptVal` as the source writes it: nil when marked nil, else the as-written
      boolean getter, so a present value never reads back as `false`.
     */
    function GetBoolOptValAsWritten(): (r: Result<Option<bool>, AEXMLError>)
      ensures HasNilMarker("1") ==> r == Success(None)
      ensures HasNilMarker("0") ==>
        (r.Success? <==> GetBoolValAsWritten().Success?) &&
        (r.Success? ==> r.value == Some(GetBoolValAsWritten().value))
      ensures r.Failure? ==> r.error == Thrown
      ensures !HasNilMarker("1") && !HasNilMarker("0") ==> r.Failure?
      ensures r.Success? && r.value.Some? ==> r.value.value
    {
      match OptIsNil()
      case Failure(e) => Failure(e)
      case Success(isNil) =>
        if isNil then Success(None)
        else
          match GetBoolValAsWritten()
          case Failure(e) => Failure(e)
          case Success(b) => Success(Some(b))
    }

    /** `getIntOptVal`: nil when marked nil, else `getIntVal`. */
    function GetIntOptVal(): (r: Result<Option<Int64>, AEXMLError>)
      ensures HasNilMarker("1") ==> r == Success(None)
      ensures HasNilMarker("0") ==>
        (r.Success? <==> GetIntVal().Success?) &&
        (r.Success? ==> r.value == Some(GetIntVal().value))
      ensures r.Failure? ==> r.error == Thrown
      ensures !HasNilMarker("1") && !HasNilMarker("0") ==> r.Failure?
    {
      match OptIsNil()
      case Failure(e) => Failure(e)
      case Success(isNil) =>
        if isNil then Success(None)
        else
          match GetIntVal()
          case Failure(e) => Failure(e)
          case Success(n) => Success(Some(n))
    }

    /** AEXML's `addChild`: appends `child` to the children and returns it. */
    method AddChild(child: AEXMLElement) returns (added: AEXMLElement)
      modifies this
      ensures children == old(children) + [child]
      ensures added == child
    {
      children := children + [child];
      added := child;
    }

    /**
      `addValueChild`: for an Int, String or Bool appends exactly one new child carrying the
      value's text and returns it; for any other kind appends nothing and returns a detached
      sentinel element.
     */
    method AddValueChild(name: string, value: AnyValue, attributes: map<string, string>)
      returns (child: AEXMLElement)
      modifies this
      ensures fresh(child) && child.children == []
      ensures value != OtherValue ==>
        children == old(children) + [child] &&
        child.name == name && child.value == XmlText(value) && child.attributes == attributes
      ensures value == OtherValue ==>
        children == old(children) && !child.Available() &&
        child.value == Some(UnsupportedMessage) && child.attributes == map[]
      ensures name != ErrorElementName ==>
        match value
        case IntValue(i) => child.GetIntVal() == Success(i)
        case StringValue(s) => child.GetStringVal() == Success(s)
        case BoolValue(b) => child.GetBoolVal() == Success(b) && child.GetBoolValAsWritten() == Success(true)
        case OtherValue => child.GetStringVal().Failure?
    {
      var xmlValue: string;
      match value {
        case IntValue(i) =>
          xmlValue := FormatInt(i);
        case StringValue(s) =>
          xmlValue := s;
        case BoolValue(b) =>
          xmlValue := if b then "true" else "false";
        case OtherValue =>
          child := new AEXMLElement(ErrorElementName, Some(UnsupportedMessage), map[]);
          return;
      }
      var node := new AEXMLElement(name, Some(xmlValue), attributes);
      child := AddChild(node);
      if name != ErrorElementName {
        match value {
          case IntValue(i) => IntRoundTrip(child, i);
          case StringValue(s) =>
          case BoolValue(b) => BoolRoundTrip(child, b);
        }
      }
    }

    /**
      `addOptValueChild`: sets the nil marker to "0" for a present value (overriding any
      caller-supplied marker) and delegates; for an absent value sets it to "1" and writes
      empty text.
     */
    method AddOptValueChild(name: string, value: Option<AnyValue>, attributes: map<string, string>)
      returns (child: AEXMLElement)
      modifies this
      ensures fresh(child) && child.children == []
      ensures value.None? ==>
        children == old(children) + [child] &&
        child.name == name && child.value == Some("") && child.attributes == attributes[IsNilKey := "1"]
      ensures value.Some? && value.value != OtherValue ==>
        children == old(children) + [child] &&
        child.name == name && child.value == XmlText(value.value) &&
        child.attributes == attributes[IsNilKey := "0"]
      ensures value == Some(OtherValue) ==>
        children == old(children) && !child.Available() &&
        child.value == Some(UnsupportedMessage) && child.attributes == map[] &&
        child.OptIsNil().Failure?
      ensures value != Some(OtherValue) ==> child.OptIsNil() == Success(value.None?)
      ensures value.None? ==>
        child.GetStringOptVal() == Success(None) && child.GetIntOptVal() == Success(None) &&
        child.GetBoolOptVal() == Success(None) && child.GetBoolOptValAsWritten() == Success(None)
      ensures name != ErrorElementName && value.Some? ==>
        match value.value
        case IntValue(i) => child.GetIntOptVal() == Success(Some(i))
        case StringValue(s) => child.GetStringOptVal() == Success(Some(s))
        case BoolValue(b) =>
          child.GetBoolOptVal() == Success(Some(b)) &&
          child.GetBoolOptValAsWritten() == Success(Some(true))
        case OtherValue => child.GetStringOptVal().Failure?
    {
      var attrs := attributes;
      if value.Some? {
        attrs := attrs[IsNilKey := "0"];
        child := AddValueChild(name, value.value, attrs);
      } else {
        attrs := attrs[IsNilKey := "1"];
        child := AddValueChild(name, StringValue(""), attrs);
      }
    }
  }

  /** Every getter invoked on the sentinel fails instead of yielding a default value. */
  lemma SentinelSafety(e: AEXMLElement)
    requires !e.Available()
    ensures e.Element() == None
    ensures e.GetStringVal() == Failure(Thrown) && e.GetIntVal() == Failure(Thrown)
    ensures e.GetBoolVal() == Failure(Thrown) && e.GetBoolValAsWritten() == Failure(Thrown)
  {
  }

  /** A "1" nil marker yields nil without consulting the text or the sentinel check. */
  lemma NilMarkerIgnoresText(e: AEXMLElement)
    requires e.HasNilMarker("1")
    ensures e.GetStringOptVal() == Success(None)
    ensures e.GetIntOptVal() == Success(None)
    ensures e.GetBoolOptVal() == Success(None)
    ensures e.GetBoolOptValAsWritten() == Success(None)
  {
  }

  /** The text written for an Int reads back as that Int. */
  lemma IntRoundTrip(e: AEXMLElement, i: Int64)
    requires e.name != ErrorElementName && e.value == XmlText(IntValue(i))
    ensures e.GetIntVal() == Success(i)
  {
    FormatParseRoundTrip(i);
  }

  /** The text written for a Bool reads back as that Bool through the corrected getter. */
  lemma BoolRoundTrip(e: AEXMLElement, b: bool)
    requires e.name != ErrorElementName && e.value == XmlText(BoolValue(b))
    ensures e.GetBoolVal() == Success(b)
  {
    var t := e.value.value;
    NonDigitEndIsNotInt(t);
    assert LowerAscii(t) == t;
  }

  /**
    An element carrying the nil marker and text that `addOptValueChild` writes for `v`
    reads back as `v` through the optional getter of its kind (for a Bool, the corrected
    getter; the as-written one reads every present Bool as `true`).
   */
  lemma OptionalRoundTrip(e: AEXMLElement, v: Option<AnyValue>)
    requires e.name != ErrorElementName && v != Some(OtherValue)
    requires e.HasNilMarker(if v.None? then "1" else "0")
    requires e.value == if v.None? then Some("") else XmlText(v.value)
    ensures v.None? ==>
      e.GetStringOptVal() == Success(None) && e.GetIntOptVal() == Success(None) &&
      e.GetBoolOptVal() == Success(None) && e.GetBoolOptValAsWritten() == Success(None)
    ensures v.Some? ==>
      match v.value
      case IntValue(i) => e.GetIntOptVal() == Success(Some(i))
      case StringValue(s) => e.GetStringOptVal() == Success(Some(s))
      case BoolValue(b) =>
        e.GetBoolOptVal() == Success(Some(b)) && e.GetBoolOptValAsWritten() == Success(Some(true))
      case OtherValue => false
  {
    if v.Some? {
      match v.value {
        case IntValue(i) => IntRoundTrip(e, i);
        case StringValue(s) =>
        case BoolValue(b) => BoolRoundTrip(e, b);
      }
    }
  }

  /** As written, the boolean getter reads the text "false" as `true`. */
  lemma BoolAsWrittenLosesFalse(e: AEXMLElement)
    requires e.name != ErrorElementName && e.value == XmlText(BoolValue(false))
    ensures e.GetBoolValAsWritten() == Success(true)
    ensures e.GetBoolVal() == Success(false)
  {
    BoolRoundTrip(e, false);
  }

  /** As written, the optional boolean getter reads a present `false` as `Optional(true)`. */
  lemma OptBoolAsWrittenLosesFalse(e: AEXMLElement)
    requires e.name != ErrorElementName && e.HasNilMarker("0")
    requires e.value == XmlText(BoolValue(false))
    ensures e.GetBoolOptValAsWritten() == Success(Some(true))
    ensures e.GetBoolOptVal() == Success(Some(false))
  {
    BoolRoundTrip(e, false);
  }
}
