/** The shipped `entityConfig` of config/entity.ts and the facts it yields. */
module ShippedEntity {
  import opened Wrappers
  import opened FieldTypes
  import opened Entity
  import Zod
  import Seqs

  function Field(name: string, labelText: string, t: FieldType, required: bool, placeholder: Option<string>,
                 options: Option<seq<string>>, defaultValue: Option<DefaultValue>, inList: bool): EntityField {
    EntityField(name, labelText, t, required, placeholder, None, options, defaultValue, Some(inList), Some(true))
  }

  const Title := Field("title", "Title", Text, true, Some("Generated post title"), None, None, true)
  const Content := Field("content", "Content", RichText, true, Some("Generated build journal post content"), None, None, true)
  const GeneratedDate := Field("generated_date", "Generated Date", Date, true, None, None, None, true)
  const Status := Field("status", "Status", Select, true, None,
                        Some(["draft", "scheduled", "published", "archived"]), Some(StringDefault("draft")), true)
  const SourceCommits := Field("source_commits", "Source Commits", Tags, false, Some("Commits used for generation"), None, None, false)
  const Platform := Field("social_media_platform", "Social Media Platform", MultiSelect, false, None,
                          Some(["X", "LinkedIn", "Bluesky", "Dev.to"]), None, false)
  const PublicUrl := Field("public_url", "Public URL", Url, false, Some("https://shiplog.dev/you/day-14"), None, None, false)

  const Config := EntityConfig(
    "BuildJournalEntry", "BuildJournalEntries", "build_journal_entries",
    [Title, Content, GeneratedDate, Status, SourceCommits, Platform, PublicUrl],
    "title", Some("content"), SortSpec("generated_date", Desc),
    true, true, true, true)

  /** The list shows title, content, generated date and status, in that order. */
  lemma ShippedListFields()
    ensures ListFields(Config) == [Title, Content, GeneratedDate, Status]
  {
    var fs := Config.fields;
    var shown, hidden := fs[..4], fs[4..];
    assert shown == [Title, Content, GeneratedDate, Status];
    assert fs == shown + hidden;
    Seqs.FilterConcat(shown, hidden, ShownInList);
    Seqs.FilterAll(shown, ShownInList);
    Seqs.FilterNone(hidden, ShownInList);
  }

  /** The form offers all seven fields, in declaration order. */
  lemma ShippedFormFields()
    ensures FormFields(Config) == Config.fields
  {
    Seqs.FilterAll(Config.fields, ShownInForm);
  }

  /** Field names are unique and the title, description and sort fields are all declared. */
  lemma ShippedWellFormed()
    ensures WellFormed(Config)
  {
    assert Config.fields[0].name == "title";
    assert Config.fields[1].name == "content";
    assert Config.fields[2].name == "generated_date";
  }

  /** The column types of the shipped fields. */
  lemma ShippedColumns()
    ensures FieldTypeToSql(Title.fieldType) == "TEXT"
    ensures FieldTypeToSql(GeneratedDate.fieldType) == "DATE"
    ensures FieldTypeToSql(Status.fieldType) == "TEXT"
    ensures FieldTypeToSql(SourceCommits.fieldType) == "TEXT[]"
    ensures FieldTypeToSql(Platform.fieldType) == "TEXT[]"
  {
  }

  /** Four options joined as enum members. */
  lemma QuotedFour(a: string, b: string, c: string, d: string)
    ensures Zod.QuotedList([a, b, c, d])
         == Zod.Quote(a) + ", " + Zod.Quote(b) + ", " + Zod.Quote(c) + ", " + Zod.Quote(d)
  {
    assert [a, b, c, d][1..] == [b, c, d];
    assert [b, c, d][1..] == [c, d];
    assert [c, d][1..] == [d];
    var qa, qb, qc, qd := Zod.Quote(a), Zod.Quote(b), Zod.Quote(c), Zod.Quote(d);
    assert Zod.QuotedList([d]) == qd;
    var l2 := Zod.QuotedList([c, d]);
    assert l2 == qc + ", " + qd;
    var l3 := Zod.QuotedList([b, c, d]);
    assert l3 == qb + ", " + l2;
    assert Zod.QuotedList([a, b, c, d]) == qa + ", " + l3;
    assert qa + ", " + (qb + ", " + (qc + ", " + qd)) == qa + ", " + qb + ", " + qc + ", " + qd;
  }

  /** The status schema enumerates the four statuses, quoted, in order; the field is required. */
  lemma ShippedStatusSchema()
    ensures Zod.FieldTypeToZod(Status)
         == "z.enum([" + Zod.Quote("draft") + ", " + Zod.Quote("scheduled") + ", "
                       + Zod.Quote("published") + ", " + Zod.Quote("archived") + "])"
  {
    QuotedFour("draft", "scheduled", "published", "archived");
    assert Zod.BaseSchema(Status) == Zod.EnumOpen + Zod.EnumMembers(Status.options) + Zod.EnumClose;
  }

  /** The optional tags and url fields get the optional array and url schemas. */
  lemma ShippedOptionalSchemas()
    ensures Zod.FieldTypeToZod(SourceCommits) == "z.array(z.string()).optional()"
    ensures Zod.FieldTypeToZod(PublicUrl) == "z.string().url().optional()"
  {
  }

  /**
   The status schema admits exactly the four declared statuses and is
   required.
   */
  lemma ShippedStatusRule()
    ensures Zod.ParseValidation(Zod.FieldTypeToZod(Status))
         == Some(Zod.Validation(Zod.OneOf(["draft", "scheduled", "published", "archived"]), false))
  {
    var os := ["draft", "scheduled", "published", "archived"];
    assert '\'' !in os[0] && '\'' !in os[1] && '\'' !in os[2] && '\'' !in os[3];
    assert Zod.QuoteFree(Status.options);
    Zod.ZodDecodesToRule(Status);
  }

  /** The shipped status field with its options removed would admit only "draft". */
  lemma StatusWithoutOptions()
    ensures Zod.ParseValidation(Zod.FieldTypeToZod(Status.(options := None)))
         == Some(Zod.Validation(Zod.OneOf(["draft"]), false))
  {
    Zod.ZodDecodesToRule(Status.(options := None));
  }
}
