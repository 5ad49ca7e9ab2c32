# ShipLog configuration engines, in Dafny

A verified model of the two pieces of logic in the ShipLog SaaS configuration:

- the **entitlement evaluator** (`config/pricing.ts`): the plan index
  (`planMap`), `getPlan`, `getPlanByPriceId`, `getLimits`, the admission
  check `checkLimit`, `isPaidTier`, `getPlanPrice` and the free / paid /
  highlighted plan selectors;
- the **entity schema engine** (`config/entity.ts`): the `FieldType`
  vocabulary, field and entity descriptors, the list and form projections
  `getListFields` / `getFormFields`, the SQL column mapping `fieldTypeToSql`
  and the Zod schema emitter `fieldTypeToZod`.

Both shipped configurations (`pricingConfig`, `entityConfig`) are written
out as Dafny values and the concrete facts they imply are proved.

## Layout

| file | module | contents |
|---|---|---|
| wrappers.dfy | Wrappers | `Option`, for `undefined` / `null` and optional properties |
| seqs.dfy | Seqs | `find`, `filter`, `indexOf` over sequences, with a complete characterisation of `filter` as an order-preserving sub-sequence |
| pricing.dfy | Pricing | `Plan`, `PricingConfig` and every pricing operation, over any plan list |
| shipped_pricing.dfy | ShippedPricing | the shipped plans, as a function of the three billing price ids |
| field_types.dfy | FieldTypes | `FieldType`, its string view, storage kinds and `fieldTypeToSql` |
| entity.dfy | Entity | `EntityField`, `EntityConfig`, list / form projections, descriptor well-formedness |
| zod.dfy | Zod | `fieldTypeToZod`, the rule each field means, and a decoder for the emitted text |
| shipped_entity.dfy | ShippedEntity | the shipped `BuildJournalEntry` descriptor |

## Modelling decisions

- The source functions read module-level globals; the model passes the
  configuration explicitly (`PricingConfig`, `EntityConfig`), so every
  property is proved for arbitrary plan lists and field lists, and the
  shipped values are one instance.
- `planMap` is `Pricing.PlanIndex`, a left fold of map updates over the
  plans: a repeated id keeps the **last** plan declared with it, exactly as
  `Map.set` in a loop does. With distinct ids (which the shipped config has)
  this is the plan with that id.
- A `string | null` tier is `Option<string>`; JavaScript's `!tier` is
  `Pricing.Falsy`, true for `null` and for `""`. `getPlan` takes a plain
  string, as in the source, and does not test `!tier`: `getPlan("")`
  falls back to the first plan only when no plan has the id `""`.
- `plan?.limits || defaultLimits`: a limits object is always truthy, so a
  known plan's limits are returned even when empty.
- `plan?.price.monthly || 0` returns the monthly price for a known plan
  (0 stays 0); `isPaidTier` and `getPlanPrice` agree on every tier.
- `highlighted?: boolean` is a `bool` with an absent flag read as false,
  since only its truthiness is used. `showInList` / `showInForm` are
  `Option<bool>`, since there an absent flag means shown.
- `FieldType` has the twelve union members plus `Other(name)` for a type
  string outside the union, which `fieldTypeToSql` and `fieldTypeToZod`
  handle through their `|| 'TEXT'` and `|| 'z.string()'` defaults.
  `FieldTypes.FieldType` is a subset type of `RawFieldType` that admits
  `Other(name)` only for a name outside the union (`Canonical`), so each type
  string has exactly one field type; `FieldTypes.Parse` reads a raw type
  string into it.
- The SQL mapping is also stated against a semantic reference:
  `FieldTypes.StorageOf` gives the storage kind each field type needs
  (unbounded text, exact integer, 2-decimal fixed point, date, timestamp with
  time zone, boolean defaulting to false, text array) and the emitted column
  type spells and reads back as that kind.
- The Zod output is text. `Zod.ValidationOf` says what rule a field is meant
  to impose (any string, coerced number, boolean, one of the select values,
  array of strings, URL, e-mail; absence accepted iff not required), and
  `Zod.ParseValidation` decodes the emitted text; the two are connected by a
  round-trip lemma.
- The shipped billing price ids come from `process.env`; here they are the
  parameters of `ShippedPricing.Config`.
- The source does not check descriptor structure; `Entity.WellFormed` states
  the invariant (unique field names, title / description / sort fields
  declared) and the shipped descriptor is proved to satisfy it.

## Model

| member | source | states |
|---|---|---|
| Pricing.PlanIndexAt | config/pricing.ts:118-121 | for any one id: the index holds it exactly when some plan declares it, and then maps it to the last plan declared with it |
| Pricing.PlanIndexLastWins | config/pricing.ts:118-121 | the plan index holds exactly the declared ids, each mapped to the last plan declared with that id |
| Pricing.Lookup | config/pricing.ts:118-121 | `planMap.get(id)`: None exactly when no plan declares the id, otherwise the last plan declared with it |
| Pricing.LookupUnique | config/pricing.ts:118-121 | with distinct plan ids, looking up any declared plan's id returns that plan |
| Pricing.GetPlan | config/pricing.ts:123-125 | a declared tier resolves to the (last) plan with that id; an undeclared tier resolves to the first plan |
| Pricing.UnknownTierFallbacks | config/pricing.ts:123-140 | for an undeclared tier, "" included, the two fallbacks differ: the plan is the first plan, the limits are the default limits |
| Pricing.GetPlanByPriceId | config/pricing.ts:127-134 | returns the id of the first plan whose monthly or yearly price id matches, and None exactly when no plan matches |
| Pricing.PriceIdRoundTrip | config/pricing.ts:127-134 | with unique price ids, every plan's declared price id (monthly or yearly) resolves back to that plan's id |
| Pricing.GetLimits | config/pricing.ts:136-140 | null, "" and unknown tiers get the default limits; a known tier gets its plan's limits |
| Pricing.LimitsOfResolvedPlan | config/pricing.ts:123-140 | for a known non-empty tier, the limits are those of the plan getPlan resolves to |
| Pricing.CheckLimit | config/pricing.ts:142-148 | an undeclared key is refused, -1 admits any usage, otherwise admission iff usage is strictly below the limit |
| Pricing.CheckLimitMonotone | config/pricing.ts:142-148 | whatever usage is admitted, every lower usage is admitted too |
| Pricing.CheckLimitKeepsCeiling | config/pricing.ts:142-148 | an admitted check implies the key is declared and, for a non-negative limit, usage + 1 stays within it |
| Pricing.IsPaidTier | config/pricing.ts:150-154 | paid iff the tier is non-empty, known, and its plan's monthly price is positive |
| Pricing.GetPlanPrice | config/pricing.ts:168-172 | the known plan's monthly price, and 0 for null, "" or unknown tiers |
| Pricing.PaidIffPositivePrice | config/pricing.ts:150-172 | a tier is paid exactly when its price is positive |
| Pricing.GetFreePlan | config/pricing.ts:156-158 | the first plan with monthly price 0, None iff no such plan |
| Pricing.GetPaidPlans | config/pricing.ts:160-162 | exactly the plans with a positive monthly price, as an order-preserving sub-sequence of the plans |
| Pricing.GetHighlightedPlan | config/pricing.ts:164-166 | the first highlighted plan, None iff none is highlighted |
| Pricing.FreePlanNotPaid | config/pricing.ts:156-162 | the free plan is never among the paid plans |
| Pricing.PaidTierIffListed | config/pricing.ts:150-162 | with distinct ids, a plan with a non-empty id is a paid tier iff it is listed by getPaidPlans |
| ShippedPricing.ShippedConfigShape | config/pricing.ts:23-116 | the shipped configuration has four plans in strictly ascending order of monthly price, each declaring exactly the limit keys of the defaults |
| ShippedPricing.ShippedIdsUnique | config/pricing.ts:30-115 | the shipped plan ids are distinct and non-empty |
| ShippedPricing.ShippedLookups | config/pricing.ts:118-125 | free, starter, pro and team each resolve to their own plan |
| ShippedPricing.FreeTierEntityLimit | config/pricing.ts:31-48 | a free tenant is admitted at 3 entities and refused at 4 |
| ShippedPricing.ProAndTeamUnlimited | config/pricing.ts:70-114 | pro and team tenants are admitted at every usage |
| ShippedPricing.UnknownTierActsFree | config/pricing.ts:26-38 | an absent, empty or unknown tier gets the default limits and is admitted exactly as a free tenant |
| ShippedPricing.UndeclaredKeyFailsClosed | config/pricing.ts:142-148 | any limit key other than "entities" is refused for every tier |
| ShippedPricing.ShippedFreePlan | config/pricing.ts:156-158 | the free plan is "free" |
| ShippedPricing.ShippedHighlightedPlan | config/pricing.ts:164-166 | the highlighted plan is "pro" |
| ShippedPricing.ShippedPaidPlans | config/pricing.ts:160-162 | the paid plans are starter, pro and team, in that order |
| ShippedPricing.ShippedPaidTiers | config/pricing.ts:150-154 | starter, pro and team are paid tiers and free is not |
| ShippedPricing.ShippedPriceIds | config/pricing.ts:127-134 | three distinct billing price ids resolve to starter, pro and team; any other id resolves to nothing |
| FieldTypes.Parse | config/entity.ts:4-16 | reading a type string gives the field type whose name is that string, and Other iff the string is outside the union |
| FieldTypes.ParseName | config/entity.ts:4-16 | every field type is read back from its own name |
| FieldTypes.FieldTypeToSql | config/entity.ts:136-152 | the column type spells the storage kind the field type needs, reads back as that kind, and is TEXT outside the union |
| FieldTypes.SqlOfRawType | config/entity.ts:136-152 | each of the twelve type names maps to its column type (TEXT, TEXT[], INTEGER, NUMERIC(10,2), DATE, TIMESTAMPTZ, BOOLEAN DEFAULT FALSE) and any other type string to TEXT |
| Entity.ListFields | config/entity.ts:128-130 | exactly the fields whose showInList is not false, as the order-preserving sub-sequence of the fields |
| Entity.FormFields | config/entity.ts:132-134 | exactly the fields whose showInForm is not false, as the order-preserving sub-sequence of the fields |
| Entity.ProjectionsIndependent | config/entity.ts:128-134 | list membership depends on showInList only and form membership on showInForm only; a list-hidden, form-shown field is in the form only |
| Entity.ListAround | config/entity.ts:128-130 | a listed field appears between the list projections of the fields before and after it |
| Entity.HideFromList | config/entity.ts:128-130 | setting one field's showInList to false removes exactly that field and keeps every other field's order |
| Zod.FieldTypeToZod | config/entity.ts:154-174 | the schema is the base schema, with `.optional()` appended exactly when the field is not required |
| Zod.BaseNotOptional | config/entity.ts:155-169 | no base schema ends in `.optional()`, so the suffix marks optional fields unambiguously |
| Zod.ZodIgnoresPresentation | config/entity.ts:154-174 | the schema depends only on type, required and options, not on name, label, placeholder or display flags |
| Zod.QuotedListRoundTrip | config/entity.ts:163 | a non-empty list of options without a single quote, quoted and joined with ", ", decodes back to the same option list |
| Zod.EnumMembersSpellValues | config/entity.ts:163 | the enum members spell the declared options, or just 'draft' when options are absent or empty |
| Zod.BaseDecodes | config/entity.ts:155-169 | each base schema decodes to the rule its field type is meant to impose |
| Zod.SelectEmitsEnum | config/entity.ts:163-173 | a select field's schema always starts with `z.enum([`, with or without options and whether or not required |
| Zod.EnumMembersRoundTrip | config/entity.ts:163 | quote-free enum members read back as the declared options, or as ["draft"] when none are declared |
| Zod.SelectDecodes | config/entity.ts:163 | for options without a single quote, a select field's enum schema decodes to its declared options, or to just "draft" when none are declared |
| Zod.SelectWithoutOptions | config/entity.ts:163-173 | any select field with no options or an empty option list admits only "draft", and accepts absence exactly when not required |
| Zod.FixedBasesDecode | config/entity.ts:155-168 | the fixed base strings decode to any string, coerced number, boolean, string array, URL and e-mail rules |
| Zod.ZodDecodesToRule | config/entity.ts:154-174 | the emitted schema decodes to the field's rule, accepting absence exactly when the field is not required |
| Zod.UnescapedOptionsCollide | config/entity.ts:163 | options are not escaped: the options ["a', 'b"] and ["a", "b"] give the same enum text |
| ShippedEntity.ShippedListFields | config/entity.ts:52-130 | the list shows title, content, generated_date and status, in order |
| ShippedEntity.ShippedFormFields | config/entity.ts:52-134 | the form shows all seven fields in declaration order |
| ShippedEntity.ShippedWellFormed | config/entity.ts:52-120 | field names are unique and titleField, descriptionField and defaultSort.field are declared |
| ShippedEntity.ShippedColumns | config/entity.ts:136-152 | the column types of title (TEXT), generated_date (DATE), status (TEXT), source_commits (TEXT[]) and social_media_platform (TEXT[]) |
| ShippedEntity.ShippedStatusSchema | config/entity.ts:79-88 | the status schema is exactly `z.enum(['draft', 'scheduled', 'published', 'archived'])`, without the optional suffix |
| ShippedEntity.ShippedOptionalSchemas | config/entity.ts:89-115 | source_commits and public_url get `z.array(z.string()).optional()` and `z.string().url().optional()` |
| ShippedEntity.ShippedStatusRule | config/entity.ts:79-88 | the status schema admits exactly the four statuses and requires a value |
| ShippedEntity.StatusWithoutOptions | config/entity.ts:163 | the shipped status field, with its options removed, admits only "draft" and still requires a value |

## Left out

- config/site.ts: static marketing, navigation and footer data with no logic.
- `process.env` reads: the billing price ids are parameters of `ShippedPricing.Config`.
- The `icon` property and the lucide-react imports: foreign UI types with no part in any decision.
- Display-only data: plan `description`, yearly price, `features`, `cta`, `pricingConfig.model` and `trialDays`; none affects any operation. (The field `description` is kept in `Entity.EntityField`, though no operation reads it.)
- Floating point: usage, limits, prices and a numeric field `defaultValue` (`Entity.DefaultValue.NumberDefault`) are integers; NaN, Infinity and fractional values are not modelled.
- Runtime Zod and SQL behaviour: the model produces and decodes the text only; URL / e-mail syntax checks and numeric coercion are named rules, not executed.
- Object prototype keys: in JavaScript, `mapping[type]` and `base[field.type]` for a type string such as `constructor` or `toString` read an inherited function instead of falling back; the model treats every out-of-union string as absent from the tables. For `limits[limitKey]` the model's answer coincides with the source (an inherited value is neither `undefined`, `-1` nor a number, so the check is false either way).
- Load-time validation: the source performs none; `Entity.WellFormed` is stated and proved for the shipped descriptor rather than checked at load time. Plan-id uniqueness is likewise a hypothesis of the lemmas that need it.
- Pricing.GetPlan: requires a non-empty plan list; with no plans the source returns `undefined` through a `Plan` return type, which the model does not represent.
- Zod.ZodDecodesToRule: for a select field, holds only for options without a single quote, because the source quotes select options without escaping them (Zod.UnescapedOptionsCollide shows two option lists that collide); other field types never quote their options and are covered whatever they declare.
- Zod.BaseDecodes: the same restriction, for select fields only, for the same reason.
- Zod.SelectDecodes: holds only for options without a single quote, for the same reason.
- Zod.QuotedListRoundTrip: holds only for a non-empty list of options without a single quote; the quoting is not injective (Zod.UnescapedOptionsCollide), and an empty list quotes to the empty text, which never appears inside an emitted enum because the source substitutes 'draft' for it (Zod.EnumMembersSpellValues).
- ShippedPricing.ShippedPriceIds: assumes the three billing price ids supplied by the environment are distinct; with equal ids the earlier plan (starter before pro before team) wins.
