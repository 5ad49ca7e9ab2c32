/**
 `fieldTypeToZod` of config/entity.ts: the Zod validation schema, as source
 text, for one entity field. Alongside the encoder, the module gives the
 rule each field is meant to impose (`ValidationOf`) and a decoder for the
 emitted text, and proves that the text decodes to that rule.
 */
module Zod {
  import opened Wrappers
  import opened FieldTypes
  import opened Entity
  import Seqs

  const OptionalSuffix: string := ".optional()"
  const EnumOpen: string := "z.enum(["
  const EnumClose: string := "])"

  predicate StartsWith(s: string, prefix: string) {
    |prefix| <= |s| && s[..|prefix|] == prefix
  }

  predicate EndsWith(s: string, suffix: string) {
    |suffix| <= |s| && s[|s| - |suffix|..] == suffix
  }

  /** An option wrapped in single quotes, without escaping. */
  function Quote(o: string): string {
    "'" + o + "'"
  }

  /** `options.map((o) => `'${o}'`).join(', ')`. */
  function QuotedList(options: seq<string>): string {
    if |options| == 0 then ""
    else if |options| == 1 then Quote(options[0])
    else Quote(options[0]) + ", " + QuotedList(options[1..])
  }

  /**
   The members of a select field's enum: `options?.map(...).join(', ') || "'draft'"`.
   Absent options give `undefined` and no options give "", both falsy.
   */
  function EnumMembers(options: Option<seq<string>>): string {
    var joined := match options
      case None => ""
      case Some(os) => QuotedList(os);
    if joined == "" then "'draft'" else joined
  }

  /** The `base` record of `fieldTypeToZod`; None for a key outside the union. */
  function ZodBase(t: FieldType, options: Option<seq<string>>): Option<string> {
    match t
    case Text => Some("z.string()")
    case RichText => Some("z.string()")
    case Number => Some("z.coerce.number()")
    case Currency => Some("z.coerce.number()")
    case Date => Some("z.string()")
    case DateTime => Some("z.string()")
    case Boolean => Some("z.boolean()")
    case Select => Some(EnumOpen + EnumMembers(options) + EnumClose)
    case MultiSelect => Some("z.array(z.string())")
    case Tags => Some("z.array(z.string())")
    case Url => Some("z.string().url()")
    case Email => Some("z.string().email()")
    case Other(_) => None
  }

  /** `base[field.type] || 'z.string()'`. */
  function BaseSchema(field: EntityField): string {
    match ZodBase(field.fieldType, field.options)
    case Some(b) => if b != "" then b else "z.string()"
    case None => "z.string()"
  }

  /**
   `fieldTypeToZod`: the base schema, followed by `.optional()` exactly when
   the field is not required.
   */
  function FieldTypeToZod(field: EntityField): (schema: string)
    ensures !field.required ==> schema == BaseSchema(field) + OptionalSuffix
    ensures field.required ==> schema == BaseSchema(field)
    ensures EndsWith(schema, OptionalSuffix) <==> !field.required
  {
    BaseNotOptional(field);
    var schema := BaseSchema(field);
    if !field.required then
      assert (schema + OptionalSuffix)[|schema|..] == OptionalSuffix;
      schema + OptionalSuffix
    else schema
  }

  /** No base schema ends in `.optional()`. */
  lemma BaseNotOptional(field: EntityField)
    ensures !EndsWith(BaseSchema(field), OptionalSuffix)
  {
    var b := BaseSchema(field);
    if field.fieldType == Select {
      var body := EnumMembers(field.options);
      assert b == EnumOpen + body + EnumClose;
      assert b[|b| - 2] == ']';
    }
  }

  /** Two fields that agree on type, requiredness and options get the same schema. */
  lemma ZodIgnoresPresentation(f: EntityField, g: EntityField)
    requires f.fieldType == g.fieldType && f.required == g.required && f.options == g.options
    ensures FieldTypeToZod(f) == FieldTypeToZod(g)
  {
  }

  /** The rule a validation schema imposes on a present value. */
  datatype Rule =
    | AnyString        // any string
    | CoercedNumber    // a string or number, coerced to a number
    | AnyBoolean       // a boolean
    | OneOf(values: seq<string>)  // one of the listed strings
    | StringList       // an array of strings, of any length
    | UrlString        // a string that is a URL
    | EmailString      // a string that is an e-mail address

  /** A rule, and whether an absent value is also accepted. */
  datatype Validation = Validation(rule: Rule, acceptsAbsent: bool)

  /** The values a select field admits: its options, or just "draft" when it declares none. */
  function SelectValues(options: Option<seq<string>>): (vs: seq<string>)
    ensures |vs| > 0
  {
    match options
    case Some(os) => if |os| > 0 then os else ["draft"]
    case None => ["draft"]
  }

  /** The rule each field type is meant to impose; a type outside the union is validated as text. */
  function RuleOf(t: FieldType, options: Option<seq<string>>): Rule {
    match t
    case Text | RichText | Date | DateTime | Other(_) => AnyString
    case Number | Currency => CoercedNumber
    case Boolean => AnyBoolean
    case Select => OneOf(SelectValues(options))
    case MultiSelect | Tags => StringList
    case Url => UrlString
    case Email => EmailString
  }

  function ValidationOf(field: EntityField): Validation {
    Validation(RuleOf(field.fieldType, field.options), !field.required)
  }

  /** No declared option contains a single quote. */
  predicate QuoteFree(options: Option<seq<string>>) {
    options.Some? ==> forall k :: 0 <= k < |options.value| ==> '\'' !in options.value[k]
  }

  /** Reads `'a', 'b', ...` back into the quoted strings. */
  function ParseQuotedList(s: string): Option<seq<string>>
    decreases |s|
  {
    if |s| == 0 || s[0] != '\'' then None
    else
      match Seqs.IndexOf(s[1..], '\'')
      case None => None
      case Some(k) =>
        var item := s[1..k + 1];
        var rest := s[k + 2..];
        if rest == "" then Some([item])
        else if StartsWith(rest, ", ") then
          match ParseQuotedList(rest[2..])
          case None => None
          case Some(items) => Some([item] + items)
        else None
  }

  /** Reads a base schema back into its rule. */
  function ParseRule(s: string): Option<Rule> {
    if |EnumOpen| + |EnumClose| <= |s| && StartsWith(s, EnumOpen) then
      if EndsWith(s, EnumClose) then
        match ParseQuotedList(s[|EnumOpen|..|s| - |EnumClose|])
        case Some(vs) => Some(OneOf(vs))
        case None => None
      else None
    else if s == "z.string()" then Some(AnyString)
    else if s == "z.coerce.number()" then Some(CoercedNumber)
    else if s == "z.boolean()" then Some(AnyBoolean)
    else if s == "z.array(z.string())" then Some(StringList)
    else if s == "z.string().url()" then Some(UrlString)
    else if s == "z.string().email()" then Some(EmailString)
    else None
  }

  /** Reads a schema back into the validation it describes. */
  function ParseValidation(s: string): Option<Validation> {
    if EndsWith(s, OptionalSuffix) then
      match ParseRule(s[..|s| - |OptionalSuffix|])
      case Some(r) => Some(Validation(r, true))
      case None => None
    else
      match ParseRule(s)
      case Some(r) => Some(Validation(r, false))
      case None => None
  }

  /** Joining a list of at least two options: the first quoted, ", ", then the rest. */
  lemma QuotedListCons(o: string, rest: seq<string>)
    requires |rest| > 0
    ensures QuotedList([o] + rest) == Quote(o) + (", " + QuotedList(rest))
  {
    assert ([o] + rest)[1..] == rest;
  }

  /** Reading one quoted item off the front: the item, then the rest of the text. */
  lemma ParseQuotedItem(o: string, tail: string)
    requires '\'' !in o
    ensures tail == "" ==> ParseQuotedList(Quote(o) + tail) == Some([o])
    ensures StartsWith(tail, ", ") && ParseQuotedList(tail[2..]).Some? ==>
              ParseQuotedList(Quote(o) + tail) == Some([o] + ParseQuotedList(tail[2..]).value)
  {
    var s := Quote(o) + tail;
    assert s[1..] == o + ['\''] + tail;
    Seqs.IndexOfAfterPrefix(o, '\'', tail);
    assert s[1..|o| + 1] == o;
    assert s[|o| + 2..] == tail;
  }

  /** A quoted item followed by ", " and a list that reads back as `vs`. */
  lemma ParseFrontItem(o: string, t: string, vs: seq<string>)
    requires '\'' !in o
    requires ParseQuotedList(t) == Some(vs)
    ensures ParseQuotedList(Quote(o) + (", " + t)) == Some([o] + vs)
  {
    var tail := ", " + t;
    assert tail[2..] == t;
    ParseQuotedItem(o, tail);
  }

  /** One step of the round trip: a quote-free item in front of a list that reads back. */
  lemma ParseConsItem(o: string, rest: seq<string>)
    requires '\'' !in o
    requires |rest| > 0
    requires ParseQuotedList(QuotedList(rest)) == Some(rest)
    ensures ParseQuotedList(QuotedList([o] + rest)) == Some([o] + rest)
  {
    QuotedListCons(o, rest);
    ParseFrontItem(o, QuotedList(rest), rest);
  }

  /** A quote-free option list splits into a quote-free head and a quote-free tail. */
  lemma QuoteFreeSplit(options: seq<string>)
    requires |options| > 0
    requires QuoteFree(Some(options))
    ensures '\'' !in options[0]
    ensures QuoteFree(Some(options[1..]))
  {
    var rest := options[1..];
    forall k | 0 <= k < |rest|
      ensures '\'' !in rest[k]
    {
      assert rest[k] == options[k + 1];
    }
  }

  /** Round trip of the enum members: quote-free options are read back exactly. */
  lemma {:induction false} QuotedListRoundTrip(options: seq<string>)
    requires |options| > 0
    requires QuoteFree(Some(options))
    ensures ParseQuotedList(QuotedList(options)) == Some(options)
  {
    QuoteFreeSplit(options);
    var o := options[0];
    if |options| == 1 {
      assert options == [o];
      assert QuotedList([o]) == Quote(o) + "";
      ParseQuotedItem(o, "");
    } else {
      var rest := options[1..];
      QuotedListRoundTrip(rest);
      ParseConsItem(o, rest);
      assert [o] + rest == options;
    }
  }

  /** The enum members always spell the values `SelectValues` admits. */
  lemma EnumMembersSpellValues(options: Option<seq<string>>)
    ensures EnumMembers(options) == QuotedList(SelectValues(options))
  {
    if options.Some? && |options.value| > 0 {
      assert QuotedList(options.value)[0] == '\'';
    }
  }

  /**
   The emitted schema means what the field declares: it decodes to the
   field's rule, accepting absence exactly when the field is not required.
   Select options containing a single quote are excluded, because the source
   quotes select options without escaping them; other field types never quote
   their options.
   */
  lemma ZodDecodesToRule(field: EntityField)
    requires field.fieldType == Select ==> QuoteFree(field.options)
    ensures ParseValidation(FieldTypeToZod(field)) == Some(ValidationOf(field))
  {
    var b := BaseSchema(field);
    BaseNotOptional(field);
    BaseDecodes(field);
    var schema := FieldTypeToZod(field);
    if !field.required {
      assert schema[..|schema| - |OptionalSuffix|] == b;
    }
  }

  /** The base schema decodes to the field's rule. */
  lemma BaseDecodes(field: EntityField)
    requires field.fieldType == Select ==> QuoteFree(field.options)
    ensures ParseRule(BaseSchema(field)) == Some(RuleOf(field.fieldType, field.options))
  {
    if field.fieldType == Select {
      SelectDecodes(field);
    } else {
      FixedBasesDecode();
      assert ZodBase(field.fieldType, field.options) != Some("");
    }
  }

  /** Quote-free enum members read back as the values they admit. */
  lemma EnumMembersRoundTrip(options: Option<seq<string>>)
    requires QuoteFree(options)
    ensures ParseQuotedList(EnumMembers(options)) == Some(SelectValues(options))
  {
    var vs := SelectValues(options);
    EnumMembersSpellValues(options);
    assert QuoteFree(Some(vs)) by {
      if vs == ["draft"] {
        assert '\'' !in vs[0];
      }
    }
    QuotedListRoundTrip(vs);
  }

  /** A select field's schema is always an enum, whatever its options. */
  lemma SelectEmitsEnum(field: EntityField)
    requires field.fieldType == Select
    ensures StartsWith(FieldTypeToZod(field), EnumOpen)
  {
    var b := EnumOpen + EnumMembers(field.options) + EnumClose;
    assert BaseSchema(field) == b;
    assert b[..|EnumOpen|] == EnumOpen;
    if !field.required {
      assert (b + OptionalSuffix)[..|EnumOpen|] == EnumOpen;
    }
  }

  /**
   A select field declaring no options, or an empty list, admits only
   "draft", through the `|| "'draft'"` fallback.
   */
  lemma SelectWithoutOptions(field: EntityField)
    requires field.fieldType == Select
    requires field.options == None || field.options == Some([])
    ensures ParseValidation(FieldTypeToZod(field)) == Some(Validation(OneOf(["draft"]), !field.required))
  {
    ZodDecodesToRule(field);
  }

  /** A select field's enum schema decodes to the values it admits. */
  lemma SelectDecodes(field: EntityField)
    requires field.fieldType == Select
    requires QuoteFree(field.options)
    ensures ParseRule(BaseSchema(field)) == Some(OneOf(SelectValues(field.options)))
  {
    var members := EnumMembers(field.options);
    EnumMembersRoundTrip(field.options);
    assert BaseSchema(field) == EnumOpen + members + EnumClose;
    EnumDecodes(members, SelectValues(field.options));
  }

  /** The fixed base schemas decode to their rules. */
  lemma FixedBasesDecode()
    ensures ParseRule("z.string()") == Some(AnyString)
    ensures ParseRule("z.coerce.number()") == Some(CoercedNumber)
    ensures ParseRule("z.boolean()") == Some(AnyBoolean)
    ensures ParseRule("z.array(z.string())") == Some(StringList)
    ensures ParseRule("z.string().url()") == Some(UrlString)
    ensures ParseRule("z.string().email()") == Some(EmailString)
  {
    assert "z.string()"[2] != EnumOpen[2];
    assert "z.coerce.number()"[2] != EnumOpen[2];
    assert "z.boolean()"[2] != EnumOpen[2];
    assert "z.array(z.string())"[2] != EnumOpen[2];
    assert "z.string().url()"[2] != EnumOpen[2];
    assert "z.string().email()"[2] != EnumOpen[2];
  }

  /** An enum schema decodes to the values its members spell. */
  lemma EnumDecodes(body: string, vs: seq<string>)
    requires ParseQuotedList(body) == Some(vs)
    ensures ParseRule(EnumOpen + body + EnumClose) == Some(OneOf(vs))
  {
    var b := EnumOpen + body + EnumClose;
    assert b[..|EnumOpen|] == EnumOpen;
    assert b[|b| - |EnumClose|..] == EnumClose;
    assert b[|EnumOpen|..|b| - |EnumClose|] == body;
  }

  /**
   Options are not escaped, so a quote inside an option can mimic an option
   boundary: two different option lists give the same enum text.
   */
  lemma UnescapedOptionsCollide()
    ensures QuotedList(["a', 'b"]) == QuotedList(["a", "b"])
  {
  }
}
