# XmlSerializable element accessors, in Dafny

This project models the element-accessor layer of SwiftXmlSerializable: the extension of
the AEXML element node (`AEXMLElement`) that the object-to-XML marshalling engine uses at
its leaves. An element is modelled as a class with a name, an optional text value and a
string-to-string attribute map, which the accessors never change, and a sequence of
children, which the writers append to in place.

- Reading: `getStringVal`, `getIntVal` and `getBoolVal` extract and validate a scalar. They
  throw when the node is the "not found" sentinel (the reserved name `AEXMLError`), when it
  has no text, or when the text does not parse. `optIsNil` reads the `isNil` marker as a
  tri-state, and the optional getters return nil for a node marked `"1"`.
- Writing: `addValueChild` appends one child carrying the text of an Int, String or Bool.
  For any other kind it returns a detached sentinel element. `addOptValueChild` forces the
  `isNil` marker to `"0"` or `"1"` and then delegates.
- Swift's `Int(String)` and `String(Int)` for the 64-bit `Int` are modelled in `IntText`.
  The parser is a digit scanner that stops on overflow. It is proved equal to a declarative
  grammar and value: an optional sign, one or more digits, and a value within the `Int`
  range. The formatter is proved to be its right inverse.

Files: `wrappers.dfy` (Option, Result), `int_text.dfy` (module `IntText`),
`xml_serializable.dfy` (module `XmlSerializable`).

Facts about the code that the model keeps:
- Every failure throws the single value `AEXMLError.Common("")`.
- `getBoolVal` never returns `false`, and so `getBoolOptVal` never returns `Optional(false)`
  (see Findings). Both are modelled as written and in corrected form.
- `addOptValueChild` sets the marker in the attributes before delegating. So a present value
  of an unsupported kind yields the detached sentinel element without any marker.

## Model

| member | source | states |
|---|---|---|
| XmlSerializable.GetArrItemStr | XmlSerializable/XmlSerializable.swift:14-16 | the sequence-item tag is a non-empty name distinct from the sentinel, so item children are always available |
| XmlSerializable.AEXMLElement.constructor | XmlSerializable/XmlSerializable.swift:239 | a new node has exactly the given name, text and attributes and no children |
| XmlSerializable.AEXMLElement.Element | XmlSerializable/XmlSerializable.swift:124-130 | `element` is the node itself exactly when its name differs from the sentinel name (`available`), and nil exactly when it equals it |
| XmlSerializable.AEXMLElement.GetStringVal | XmlSerializable/XmlSerializable.swift:153-157 | succeeds exactly when the node is not the sentinel and has text; then returns that text unchanged; otherwise throws the single error |
| XmlSerializable.AEXMLElement.GetIntVal | XmlSerializable/XmlSerializable.swift:164-168 | propagates a string-getter failure; otherwise succeeds exactly when the text is an optionally signed, non-empty digit string whose value is in `Int` range, and returns that value |
| XmlSerializable.AEXMLElement.GetBoolValAsWritten | XmlSerializable/XmlSerializable.swift:158-163 | as written: succeeds exactly on the true texts (case-insensitive "true" or integer 1) and the false texts (case-insensitive "false" or integer 0), and every success is `true` |
| XmlSerializable.AEXMLElement.GetBoolVal | XmlSerializable/XmlSerializable.swift:158-163 | corrected: `true` exactly on the true texts, `false` exactly on the false texts, error on every other text and on a string-getter failure |
| XmlSerializable.TrueFalseTextsDisjoint | XmlSerializable/XmlSerializable.swift:160-161 | no text is both a true text and a false text, so the order of the two tests does not matter |
| XmlSerializable.AEXMLElement.OptIsNil | XmlSerializable/XmlSerializable.swift:183-195 | true exactly when attribute `isNil` is "1", false exactly when it is "0", an error when it is absent or anything else |
| XmlSerializable.AEXMLElement.GetStringOptVal | XmlSerializable/XmlSerializable.swift:196-198 | nil when marked "1"; when marked "0", success and value agree with `getStringVal`; a missing or malformed marker is an error |
| XmlSerializable.AEXMLElement.GetBoolOptValAsWritten | XmlSerializable/XmlSerializable.swift:199-201 | as written: nil when marked "1"; when marked "0", success and value agree with the as-written boolean getter, so a present value is always `true`; a missing or malformed marker is an error |
| XmlSerializable.AEXMLElement.GetBoolOptVal | XmlSerializable/XmlSerializable.swift:199-201 | corrected: nil when marked "1"; when marked "0", success and value agree with the corrected boolean getter; a missing or malformed marker is an error |
| XmlSerializable.AEXMLElement.GetIntOptVal | XmlSerializable/XmlSerializable.swift:202-204 | nil when marked "1"; when marked "0", success and value agree with `getIntVal`; a missing or malformed marker is an error |
| XmlSerializable.NilMarkerIgnoresText | XmlSerializable/XmlSerializable.swift:196-204 | a node marked "1" yields nil from every optional getter (both boolean forms included) without regard to its text or to the sentinel check |
| XmlSerializable.SentinelSafety | XmlSerializable/XmlSerializable.swift:153-168 | on the sentinel node `element` is nil and the string, integer and boolean getters all fail rather than return a default |
| XmlSerializable.AEXMLElement.AddChild | XmlSerializable/XmlSerializable.swift:240 | appends the given child at the end of the children and returns it |
| XmlSerializable.AEXMLElement.AddValueChild | XmlSerializable/XmlSerializable.swift:216-241 | for Int, String or Bool appends exactly one fresh child at the end, with the given name and attributes and text the decimal form, the string itself, or "true"/"false", and earlier children are unchanged; the child reads back the Int, the String and the Bool (as-written boolean getter: always `true`); any other kind leaves the children unchanged and returns a detached sentinel element |
| XmlSerializable.AEXMLElement.AddOptValueChild | XmlSerializable/XmlSerializable.swift:243-252 | an absent value appends a child with empty text and marker "1"; a present supported value appends the value's child with marker "0", overriding the caller's marker; an unsupported present value appends nothing and returns the detached sentinel element with the fixed message and no attributes; `optIsNil` of the child equals "value was absent"; the optional getters read back nil and some(v) (for a Bool through the corrected getter; the as-written one gives some(true)) |
| XmlSerializable.IntRoundTrip | XmlSerializable/XmlSerializable.swift:164-168 | the text written for an `Int` reads back as that `Int` |
| XmlSerializable.BoolRoundTrip | XmlSerializable/XmlSerializable.swift:158-163 | the text written for a Bool reads back as that Bool through the corrected getter |
| XmlSerializable.BoolAsWrittenLosesFalse | XmlSerializable/XmlSerializable.swift:161 | the text "false" that the writer produces for `false` is read back as `true` by the getter as written |
| XmlSerializable.OptionalRoundTrip | XmlSerializable/XmlSerializable.swift:243-252 | a node with the marker and text written for none or some(v) reads back none or some(v) through the optional getter of v's kind (for a Bool the corrected getter; the as-written one gives some(true)) |
| XmlSerializable.OptBoolAsWrittenLosesFalse | XmlSerializable/XmlSerializable.swift:200 | the node written for an optional `false` (marker "0", text "false") reads back as some(true) through the optional getter as written |
| XmlSerializable.LowerAsciiMatchesWord | XmlSerializable/XmlSerializable.swift:160-161 | the lower-cased text equals "true" (or "false") exactly when it has that length and each character is that word's letter in lower or upper case |
| IntText.ParseInt | XmlSerializable/XmlSerializable.swift:166 | `Int(String)` yields a value exactly when the text is an optional sign followed by one or more digits with value in [-2^63, 2^63-1], and then yields that value |
| IntText.ScanDigits | XmlSerializable/XmlSerializable.swift:166 | the digit scan that stops as soon as the magnitude passes the limit succeeds exactly when all the text is digits and its whole value is within the limit |
| IntText.NonDigitEndIsNotInt | XmlSerializable/XmlSerializable.swift:160-161 | a text ending in a non-digit never parses as an `Int`, so "true" and "false" are not integer texts |
| IntText.FormatInt | XmlSerializable/XmlSerializable.swift:220 | `String(Int)` is an integer literal with a `-` exactly for negative numbers, no `+`, and no leading zero |
| IntText.FormatParseRoundTrip | XmlSerializable/XmlSerializable.swift:219-220 | parsing the decimal text of any `Int` gives back that `Int` |

## Left out

- Document façade (`toXml`, `toXmlString`, `toXmlData`, `toXmlFile`, `fromXmlRoot`, `fromXmlData`, `fromXmlString`, `fromXmlFile`, lines 23-92): XML parsing and printing are done by the AEXML library, which is not part of this model, plus UTF-8 encoding and file I/O.
- `defaultRootName` and the `XmlSavable`/`XmlRetrievable` protocol requirements (`toXml(rootName:)`, `fromXml`): they have no implementation in the modelled file.
- Double handling (`getDoubleVal`, `getDoubleOptVal`, the `%f` and `%.Nf` branch of `addValueChild`): floating-point parsing and formatting. `AnyValue` has no Double case.
- Date handling (`getDateVal`, `getDateOptVal`, the NSDate branch): it depends on `NSDateFormatter`, its locale and its time zone. `AnyValue` has no NSDate case.
- The `doublePrecision` parameter of both writers: it only affects the Double branch.
- `Log` and `AEXMLError.log`: print side effects only. Errors are the single value `Common("")`.
- The commented-out block at lines 132-148: it is not compiled.
- AEXML internals: parent links set by `addChild`, and child lookup by name. The sentinel name is the library's constant `AEXMLError`. No proof depends on its spelling beyond it differing from "arrItem".
- Attribute values that are not strings: attributes are modelled as `map<string, string>`. So the `as? String` cast in `optIsNil` always succeeds here.
- `lowercaseString` is modelled on ASCII letters only. Only ASCII letters lower-case to the letters of "true" and "false", so the comparison results agree.
- `Int` is modelled as 64-bit. The 32-bit range of `Int` on 32-bit targets is not covered: there, texts such as "3000000000" fail to parse, while the model parses them.
- Bridged numeric values (an `NSNumber` that could match more than one `case` of the value switch) are not modelled. Each `AnyValue` has exactly one kind.
- The container codecs (sequence, mapping, set) and the reflective record codec: they are not implemented in the modelled file.
- `XmlSerializableExample/Test.swift` and `ViewController.swift`: they are example fixtures and UI, not part of the core.

## Findings

| source | as written | input that shows it | evidently intended | confidence | as-written member | corrected member |
|---|---|---|---|---|---|---|
| XmlSerializable/XmlSerializable.swift:161 | returns `true` when the text is "false" or an integer 0 | the node `addValueChild` writes for `false` (text "false") reads back as `true` | return `false` on the false texts, so that a Bool round-trips | high (not executed) | XmlSerializable.BoolAsWrittenLosesFalse | XmlSerializable.BoolRoundTrip |
| XmlSerializable/XmlSerializable.swift:200 | delegates to the `getBoolVal` of line 161 | the node `addOptValueChild` writes for an optional `false` (marker "0", text "false") reads back as `Optional(true)` | read back `Optional(false)` | high (not executed) | XmlSerializable.OptBoolAsWrittenLosesFalse | XmlSerializable.OptionalRoundTrip |
