/**
 The entity descriptors of config/entity.ts and their list and form
 projections. The source projects one global `entityConfig`; here the
 projections take the descriptor as a parameter.
 */
module Entity {
  import opened Wrappers
  import opened FieldTypes
  import Seqs

  datatype DefaultValue = StringDefault(s: string) | NumberDefault(n: int) | BooleanDefault(b: bool)

  /** `EntityField` (`label` is `labelText`, a keyword in Dafny); every optional property is an Option (`showInList` / `showInForm` absent means shown). */
  datatype EntityField = EntityField(
    name: string,
    labelText: string,
    fieldType: FieldType,
    required: bool,
    placeholder: Option<string>,
    description: Option<string>,
    options: Option<seq<string>>,
    defaultValue: Option<DefaultValue>,
    showInList: Option<bool>,
    showInForm: Option<bool>)

  datatype SortDirection = Asc | Desc

  datatype SortSpec = SortSpec(field: string, direction: SortDirection)

  /** `EntityConfig`, without its display icon. */
  datatype EntityConfig = EntityConfig(
    name: string,
    pluralName: string,
    slug: string,
    fields: seq<EntityField>,
    titleField: string,
    descriptionField: Option<string>,
    defaultSort: SortSpec,
    allowCreate: bool,
    allowEdit: bool,
    allowDelete: bool,
    allowExport: bool)

  /** `f.showInList !== false`. */
  predicate ShownInList(f: EntityField) {
    f.showInList != Some(false)
  }

  /** `f.showInForm !== false`. */
  predicate ShownInForm(f: EntityField) {
    f.showInForm != Some(false)
  }

  /**
   `getListFields`: the fields whose `showInList` is not explicitly false,
   in declaration order.
   */
  function ListFields(e: EntityConfig): (r: seq<EntityField>)
    ensures forall f :: f in r <==> f in e.fields && f.showInList != Some(false)
    ensures Seqs.IsFilterOf(r, e.fields, ShownInList)
  {
    Seqs.FilterMembers(e.fields, ShownInList);
    Seqs.FilterKeepsOrder(e.fields, ShownInList);
    Seqs.Filter(e.fields, ShownInList)
  }

  /**
   `getFormFields`: the fields whose `showInForm` is not explicitly false,
   in declaration order.
   */
  function FormFields(e: EntityConfig): (r: seq<EntityField>)
    ensures forall f :: f in r <==> f in e.fields && f.showInForm != Some(false)
    ensures Seqs.IsFilterOf(r, e.fields, ShownInForm)
  {
    Seqs.FilterMembers(e.fields, ShownInForm);
    Seqs.FilterKeepsOrder(e.fields, ShownInForm);
    Seqs.Filter(e.fields, ShownInForm)
  }

  /**
   The projections are decided by their own flag alone: a declared field is
   listed iff its `showInList` is not false and offered in the form iff its
   `showInForm` is not false, so a field with `showInList: false,
   showInForm: true` appears in the form projection only.
   */
  lemma ProjectionsIndependent(e: EntityConfig, f: EntityField)
    requires f in e.fields
    ensures f in ListFields(e) <==> f.showInList != Some(false)
    ensures f in FormFields(e) <==> f.showInForm != Some(false)
    ensures f.showInList == Some(false) && f.showInForm == Some(true) ==> f !in ListFields(e) && f in FormFields(e)
  {
  }

  /**
   A listed field sits in the list projection between the projections of
   the fields declared before it and after it.
   */
  lemma ListAround(e: EntityConfig, i: int)
    requires 0 <= i < |e.fields|
    requires e.fields[i].showInList != Some(false)
    ensures ListFields(e) == ListFields(e.(fields := e.fields[..i])) + [e.fields[i]] + ListFields(e.(fields := e.fields[i + 1..]))
  {
    Seqs.FilterAround(e.fields, i, ShownInList);
  }

  /**
   Hiding field `i` from the list removes exactly that field: the fields
   before and after it keep their relative order.
   */
  lemma HideFromList(e: EntityConfig, i: int)
    requires 0 <= i < |e.fields|
    ensures ListFields(e.(fields := e.fields[i := e.fields[i].(showInList := Some(false))]))
         == ListFields(e.(fields := e.fields[..i])) + ListFields(e.(fields := e.fields[i + 1..]))
  {
    var fs := e.fields;
    var fs' := fs[i := fs[i].(showInList := Some(false))];
    assert fs'[..i] == fs[..i] && fs'[i + 1..] == fs[i + 1..];
    Seqs.FilterAround(fs', i, ShownInList);
  }

  /** Field names are pairwise distinct. */
  predicate UniqueNames(fields: seq<EntityField>) {
    forall i, j :: 0 <= i < j < |fields| ==> fields[i].name != fields[j].name
  }

  /** Some field is declared with this name. */
  predicate Declares(fields: seq<EntityField>, name: string) {
    exists i :: 0 <= i < |fields| && fields[i].name == name
  }

  /**
   The structural invariant a descriptor must satisfy: unique field names,
   and the title, description and default-sort fields all declared.
   */
  predicate WellFormed(e: EntityConfig) {
    && UniqueNames(e.fields)
    && Declares(e.fields, e.titleField)
    && (e.descriptionField.Some? ==> Declares(e.fields, e.descriptionField.value))
    && Declares(e.fields, e.defaultSort.field)
  }
}
