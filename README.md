# openapi-sdk-generator, modelled in Dafny

This project models the string- and value-producing core of an OpenAPI
generator. The generator reads an OpenAPI 3 document and emits five things:

- a TypeScript SDK: the type declarations, a client class, its import line and an index file;
- a GraphQL schema, both as structure and as SDL text;
- a Postman v2.1 collection;
- a list of cURL commands;
- the decisions of its three command-line tools.

The OpenAPI document is the `OpenApi.Spec` datatype. JavaScript records become datatypes with `Option` fields. Every
`Record<string, …>` becomes a sequence of key/value pairs in document order. `OpenApi.SpecValue` gives the JSON view of
the document that `resolveRef` walks.

The JavaScript behaviour the generators rely on is written out explicitly:

- truthiness, `||`, and template interpolation of `undefined`;
- `String(v)`;
- `split`/`join`, and `replace` with a string pattern, which replaces the first occurrence only;
- ASCII upper- and lower-casing.

Modules, one per source file: `Wrappers`, `Text` and `Values` are support;
`OpenApi` holds the datatypes and the endpoint walk; then `Parser`,
`GraphQL`, `TypeGen`, `Client`, `Postman`, `Curl`, `Sdk` and `Cli`.

Where the source mutates state, it is modelled that way:

- `TypeGen.TypeGenerator` is a class whose `generatedTypes` set persists across calls.
- Each loop that pushes onto an array, appends to a string or reassigns a variable (including the `forEach` callbacks of the cURL generator) is a `method` with a `while` loop.
- Each such method is proved equal to a recursive specification function.
- The lemmas then state the promised properties about those functions.

Foreign or non-deterministic inputs become parameters:

- `Math.random()` becomes a stream `coin: nat -> bool`. `coin(k)` says whether the k-th draw passes its threshold.
- `JSON.stringify` and `encodeURIComponent` become function parameters.
- `fs.existsSync` becomes `fileExists: string -> bool`.
- the emitted `request<T>` helper is a string parameter.

Exceptions are values:

- `RangeError` stands for the stack overflow of a cyclic `$ref`. The example generators take a `fuel` bound, and when it runs out they return `RangeError`.
- `TypeError` stands for reading a property of `undefined`.
- `Parser.RefError` stands for the two failures of `resolveRef`.

Behaviours of the code worth noting:

- GraphQL field and argument names are only stripped of non-alphanumerics. `toCamelCase` then has nothing to act on.
- Without an `operationId`, GraphQL names `GET /pets/{id}` `getPets`. The client names it `getPetsId`.
- A second `generateTypes` call on the same instance emits only the header and one newline per schema.
- The Postman example generator draws no random numbers. Its string example ignores `example`, and an empty `enum` yields `undefined`.
- In `generateInterface`, a `$ref` schema never emits the resolved schema, because the name is already marked as generated.
- The command-line tools accept `API.JSON` (the extension check lower-cases it), but `parse` matches suffixes case-sensitively and rejects it. Such a run therefore ends in the generation error (`Cli.UpperCaseExtensionAcceptedByCli`).

## Model

| member | source | states |
|---|---|---|
| OpenApi.ParamsIn | src/postman/postman-generator.ts:58-60 | every kept parameter has the location asked for, and every declared parameter with that location is kept |
| OpenApi.RefTypeName | src/sdk/type-generator.ts:86-89 | the name is never empty and has no `/`; when the reference's last `/` segment is non-empty, the name is that segment, a suffix of the reference |
| OpenApi.BaseUrl | src/postman/postman-generator.ts:12 | the first server's URL when there is a first server with a non-empty URL, and the fallback otherwise |
| OpenApi.CollectEndpoints | src/postman/postman-generator.ts:32-39 | the nested loop over paths and their members computes `Endpoints`; every endpoint comes from one path entry and one of its members |
| OpenApi.CollectItem | src/postman/postman-generator.ts:33-38 | the inner loop over one path item's members computes `ItemEndpoints`, one endpoint per operation member, in member order |
| Values.GetFirst | src/postman/postman-generator.ts:153 | a record lookup such as `schemas[refName]` gives the value of the first entry with that key |
| Parser.ParseFormat | src/core/parser.ts:9-15 | YAML iff the path ends in `.yaml` or `.yml`; JSON iff it ends in `.json` and neither of those; otherwise the unsupported-format error |
| Parser.UpperCaseJsonRejected | src/core/parser.ts:9-15 | the suffix test is case-sensitive: `.JSON` is rejected |
| Parser.Index | src/core/parser.ts:23-26 | indexing `null`/`undefined` raises; a present key gives its first value; a missing key gives `undefined` |
| Parser.ResolveRef | src/core/parser.ts:18-30 | the loop over the segments computes `Resolve`: strip the first `#/`, split on `/`, index step by step |
| Parser.WalkCompose | src/core/parser.ts:22-27 | walking `a + b` is walking `a` and then walking `b` from where `a` ended |
| Parser.NotFoundAtFirstMissing | src/core/parser.ts:22-25 | the walk fails with `Reference <ref> not found` iff, for some k, the first k segments walk to a value whose segment k is `undefined` |
| Parser.HashSlashAloneFails | src/core/parser.ts:19-25 | `#/` alone always fails: its only segment is the empty key |
| Parser.ResolveNamedSchema | src/core/parser.ts:18-30 | `#/components/schemas/N` resolves to the JSON view of the registry entry `N` |
| GraphQL.CamelCase | src/graphql/graphql-generator.ts:303-305 | the result never contains a separator and is no longer than the input |
| GraphQL.CamelCaseUnchanged | src/graphql/graphql-generator.ts:303-305 | a string without separators is unchanged |
| GraphQL.CamelCaseKeepsPlain | src/graphql/graphql-generator.ts:303-305 | a separator-free prefix passes through unchanged, and camel-casing continues after it |
| GraphQL.CamelCaseRun | src/graphql/graphql-generator.ts:303-305 | a run of separators followed by a character is replaced by that character upper-cased |
| GraphQL.CamelCaseTrailingRun | src/graphql/graphql-generator.ts:303-305 | a run of separators at the end is removed |
| GraphQL.PascalCase | src/graphql/graphql-generator.ts:299-301 | without separators, PascalCase is capitalising the first character |
| GraphQL.PascalCaseRun | src/graphql/graphql-generator.ts:299-305 | a word, a separator run and the rest give the word capitalised, the next character upper-cased, then the camel-cased rest |
| GraphQL.PascalCaseTrailingRun | src/graphql/graphql-generator.ts:299-305 | a trailing separator run is dropped after the capitalised word |
| GraphQL.PascalCaseUserProfiles | src/graphql/graphql-generator.ts:299-305 | `user-profiles` gives `UserProfiles` |
| GraphQL.TypeName | src/graphql/graphql-generator.ts:291-293 | a type name is the capitalised alphanumeric characters of the name |
| GraphQL.FieldName | src/graphql/graphql-generator.ts:295-297 | a field name is the alphanumeric characters of the name, in order |
| GraphQL.TypeNameWithInput | src/graphql/graphql-generator.ts:274-277 | appending `Input` before PascalCasing equals appending it after |
| GraphQL.OutputType | src/graphql/graphql-generator.ts:238-271 | the output mapping yields only letters, digits and list brackets, and is non-empty for a non-reference |
| GraphQL.InputType | src/graphql/graphql-generator.ts:273-289 | the input mapping never yields an empty type |
| GraphQL.ScalarOutputTypes | src/graphql/graphql-generator.ts:244-270 | `integer`→`Int`, `number`→`Float`, `boolean`→`Boolean`, `string`→`String`, `object`→`JSON`, unknown or missing→`String`, whatever the format or enum |
| GraphQL.ScalarType | src/graphql/graphql-generator.ts:244-270 | the scalar cases of the mapping give one of `String`, `Int`, `Float`, `Boolean`, `JSON`, which is a nonempty type expression |
| GraphQL.ArrayOutputType | src/graphql/graphql-generator.ts:261-263 | an array maps to `[` item type `]`, or `[String]` without items |
| GraphQL.RefTypes | src/graphql/graphql-generator.ts:239-242 | a `$ref` maps to the type name of its last segment, and its input type is that name plus `Input` |
| GraphQL.InputFromOutput | src/graphql/graphql-generator.ts:279-288 | for non-references the input type is the output type, except that arrays get `Input` inside the brackets, with `JSON` replaced by `JSONInput`, and `object` becomes `JSONInput` |
| GraphQL.OperationName | src/graphql/graphql-generator.ts:197-212 | with an `operationId` the name is its alphanumerics; otherwise it is the verb's prefix (`get`/`list`, `create`, `update`, `delete`) followed by the PascalCased last named segment |
| GraphQL.LastNamedSegment | src/graphql/graphql-generator.ts:202-203 | never empty and never contains `/`; `resource` when every segment is empty or starts with `{`; otherwise some segment that is named and is followed by no named segment |
| GraphQL.NamedSegmentsLast | src/graphql/graphql-generator.ts:202-203 | the filtered list is empty iff every segment is unnamed; its last element is a named segment with no named segment after it |
| GraphQL.LastNamedSegmentIsLast | src/graphql/graphql-generator.ts:202-203 | the chosen segment is `resource` iff no segment is named, and otherwise a segment that is not empty, not a `{…}` placeholder, and followed only by unnamed segments |
| GraphQL.GetItemName | src/graphql/graphql-generator.ts:197-212 | without an `operationId`, `GET /r/{p}` is named `get` + `r` capitalised, with the parameter ignored |
| GraphQL.ListName | src/graphql/graphql-generator.ts:197-212 | without an `operationId`, `GET /r` is named `list` + `r` capitalised |
| GraphQL.ListPathName | src/graphql/graphql-generator.ts:197-212 | without an `operationId`, `GET /r` is named `list` + the PascalCase of `r`, separators included |
| GraphQL.ListUserProfiles | src/graphql/graphql-generator.ts:197-212 | without an `operationId`, `GET /user-profiles` is named `listUserProfiles` |
| GraphQL.ReturnType | src/graphql/graphql-generator.ts:214-227 | the first present response among 200, 201 and 204 decides: `Boolean` without content, `String` without a JSON schema, else the output mapping |
| GraphQL.RequestInputType | src/graphql/graphql-generator.ts:229-236 | there is an input type iff the body has an `application/json` schema, and it is that schema's input mapping |
| GraphQL.EnumValueName | src/graphql/graphql-generator.ts:100 | an enum value name has one character per character of `String(value)`; each alphanumeric or `_` character is upper-cased, and every other character becomes `_` |
| GraphQL.EnumValueNameExample | src/graphql/graphql-generator.ts:100 | `in-stock` is named `IN_STOCK` |
| GraphQL.GenerateEnum | src/graphql/graphql-generator.ts:98-110 | one value per enum member, in order, under the type name of the schema name |
| GraphQL.PropFields | src/graphql/graphql-generator.ts:64-80 | one field per property, in order |
| GraphQL.BuildFields | src/graphql/graphql-generator.ts:67-72 | the property loop of `generateType`/`generateInput` builds exactly `PropFields` |
| GraphQL.Arguments | src/graphql/graphql-generator.ts:180-195 | one argument per declared parameter, in order, with `nullable` exactly when the parameter is not required |
| GraphQL.BuildArguments | src/graphql/graphql-generator.ts:180-195 | the loop of `generateArguments` builds exactly `Arguments` |
| GraphQL.GenerateMutation | src/graphql/graphql-generator.ts:150-178 | a mutation's arguments are the parameters' arguments followed by the optional `input` argument |
| GraphQL.MutationArguments | src/graphql/graphql-generator.ts:155-165 | the mutation ends with an `input` argument iff the body has an `application/json` schema |
| GraphQL.GenerateSchema | src/graphql/graphql-generator.ts:23-62 | the two loops of `generateSchema` build exactly `SchemaOf` |
| GraphQL.TypesAndInputsPair | src/graphql/graphql-generator.ts:30-39 | as many types as inputs, and the k-th input is named like the k-th type with `Input` appended and has its field names and nullability |
| GraphQL.GeneratedInputMatches | src/graphql/graphql-generator.ts:34-36 | the input generated for `${name}Input` is named like the type with `Input` appended and has its field names and nullability |
| GraphQL.BuildDeclarations | src/graphql/graphql-generator.ts:30-39 | the loop over the named schemas builds exactly `Declarations`: types, inputs and enums in registry order |
| GraphQL.BuildRootFields | src/graphql/graphql-generator.ts:41-53 | the nested loop over the operations builds exactly `RootFields`: queries and mutations in walk order |
| GraphQL.EnumSchemasOnlyEnums | src/graphql/graphql-generator.ts:32-33 | a schema with `enum` becomes only an enum |
| GraphQL.RootFieldVerbs | src/graphql/graphql-generator.ts:41-53 | at most one root field per operation; every query resolves a `GET`, every mutation a `POST`, `PUT`, `PATCH` or `DELETE` |
| GraphQL.FieldLines | src/graphql/graphql-generator.ts:400-406 | one line per field, in order |
| GraphQL.ValueLines | src/graphql/graphql-generator.ts:367-372 | one line per enum value, in order |
| GraphQL.RenderBlock | src/graphql/graphql-generator.ts:361-409 | the `render*` loops build exactly `Block`: description line, `keyword Name {`, the lines, `}` |
| GraphQL.AppendItems | src/graphql/graphql-generator.ts:318-321 | appending the items in a loop appends their concatenation |
| GraphQL.AppendSection | src/graphql/graphql-generator.ts:316-338 | the appending loop appends exactly `Section(heading, items)`, which is empty for an empty list |
| GraphQL.AppendRoot | src/graphql/graphql-generator.ts:340-356 | the appending loop appends exactly the Query or Mutation section, which is empty for no operations |
| GraphQL.GenerateGraphQLSchema | src/graphql/graphql-generator.ts:307-359 | the rendering loop builds exactly `RenderSchema(SchemaOf(spec))` |
| GraphQL.RenderStartsWithHeader | src/graphql/graphql-generator.ts:309-314 | the SDL always starts with the header and the three scalar lines |
| GraphQL.RenderIsHeaderIffEmpty | src/graphql/graphql-generator.ts:316-356 | the SDL is just the header iff all five lists are empty |
| GraphQL.SectionShape | src/graphql/graphql-generator.ts:316-322 | a section is empty iff its list is empty, and otherwise starts with its heading |
| GraphQL.FieldLineBang | src/graphql/graphql-generator.ts:387-388 | a field line ends with `!` iff the field is not nullable |
| GraphQL.TypeFieldBangIffRequired | src/graphql/graphql-generator.ts:404-405 | a rendered object-type field has `!` iff its property is required |
| GraphQL.ArgumentsParenthesisedIffAny | src/graphql/graphql-generator.ts:417-424 | the argument list is parenthesised iff there are arguments |
| TypeGen.SchemaToTypeScript | src/sdk/type-generator.ts:85-116 | the recursive mapper with its property loop computes `TsType` |
| TypeGen.RefMapping | src/sdk/type-generator.ts:86-89 | a `$ref` maps to a non-empty name without `/`: `unknown` or a suffix of the reference |
| TypeGen.PrimitiveMapping | src/sdk/type-generator.ts:91-115 | `string`→`string`, a string `enum`→the quoted members joined by ` | `, `number`/`integer`→`number`, `boolean`→`boolean`, arrays→item type + `[]` (or `unknown[]`), object with properties→`{`, the member lines, `  }`, object without properties→`Record<string, unknown>`, unknown→`unknown` |
| TypeGen.MemberLines | src/sdk/type-generator.ts:104-108 | one member line per property of an inline object type, in order |
| TypeGen.MemberOptionalMark | src/sdk/type-generator.ts:104-108 | an inline member line starts with four spaces and the property name, and the next character is `?` iff the property is not required |
| TypeGen.InterfaceLines | src/sdk/type-generator.ts:55-63 | one line per property, in declaration order |
| TypeGen.GenerateObjectInterface | src/sdk/type-generator.ts:52-67 | the loop of `generateObjectInterface` builds exactly `ObjectInterface` |
| TypeGen.InterfaceOptionalMark | src/sdk/type-generator.ts:57-61 | the character after a property name is `?` iff the property is not required |
| TypeGen.EnumAlternatives | src/sdk/type-generator.ts:72-74 | one alternative per enum member |
| TypeGen.EnumAlternativesQuoted | src/sdk/type-generator.ts:72-74 | string members are single-quoted, others printed with `String` |
| TypeGen.RefDeclaresNothing | src/sdk/type-generator.ts:32-35 | a named `$ref` schema emits `""` when the reference resolves, and raises its error otherwise |
| TypeGen.NamedRefDeclaresNothing | src/sdk/type-generator.ts:32-35 | a reference to a registry entry emits `""` |
| TypeGen.DeclarationShape | src/sdk/type-generator.ts:37-49 | a non-reference schema always declares something: `export interface Name {` iff it is an object or has properties, otherwise `export type Name = ` |
| TypeGen.TypeGenerator.GenerateInterface | src/sdk/type-generator.ts:25-50 | the name is added to `generatedTypes`, and the result is `Interface` for the set before the call, which is `""` for an already-seen name |
| TypeGen.TypeGenerator.GenerateTypes | src/sdk/type-generator.ts:12-23 | the loop computes `Run` from the current set of seen names and leaves the set `Run` returns |
| TypeGen.RunMarksAll | src/sdk/type-generator.ts:15-20 | a successful run has marked every schema name |
| TypeGen.RunAllSeen | src/sdk/type-generator.ts:26-28 | when every name is already seen, the output is the header and one newline per schema |
| TypeGen.SecondRunIsEmpty | src/sdk/type-generator.ts:12-28 | after a successful run, running again with the names it marked emits only the header and one newline per schema |
| TypeGen.GenerateTypesTwice | src/sdk/type-generator.ts:12-23 | on one instance, a second `generateTypes` returns header plus newlines |
| Client.ClassName | src/sdk/client-generator.ts:18-22 | the class name is alphanumeric, is the title's alphanumerics with the first letter capitalised, and ends with `Client` |
| Client.ClientType | src/sdk/client-generator.ts:173-186 | a successful type is never empty |
| Client.ClientTypeMapping | src/sdk/client-generator.ts:173-186 | `string`→`string`, `number`/`integer`→`number`, `boolean`→`boolean`; an array fails iff `items` is missing or the item type fails, and is otherwise the item type + `[]`; `object` and an unknown or missing type map to `any` |
| Client.ClientRefMapping | src/sdk/client-generator.ts:174-177 | a `$ref` always succeeds with a name without `/`, whatever `type` and `items` say |
| Client.ClientReturnType | src/sdk/client-generator.ts:188-199 | response 200 decides when present, else 201: its JSON schema's client type, or `any` without one; without 200 and 201 the return type is `any` |
| Client.ReturnTypeWithout200Or201 | src/sdk/client-generator.ts:188-199 | a 204-only operation returns `any` |
| Client.BodyType | src/sdk/client-generator.ts:156-167 | no body type iff no `requestBody`; `any` when there is no JSON schema; with one, its client type, or that type's error |
| Client.ParamTypes | src/sdk/client-generator.ts:169-171 | one type per parameter, and a failure iff some parameter's type fails |
| Client.QueryFieldOptional | src/sdk/client-generator.ts:111-113 | a query field carries `?` iff the parameter is not required |
| Client.ParamListOf | src/sdk/client-generator.ts:101-115 | the list is the path declarations, then `data`, then `params?` exactly when they apply |
| Client.ParamListShape | src/sdk/client-generator.ts:101-115 | the list has one entry per path parameter, plus one for a body, plus one for query parameters |
| Client.SubstitutePlaceholders | src/sdk/client-generator.ts:121-124 | the `forEach` computes `SubstitutePath` |
| Client.SubstituteOne | src/sdk/client-generator.ts:123 | the first `{name}` is replaced by `${name}`; when there is none the path is unchanged |
| Client.CleanPath | src/sdk/client-generator.ts:143 | the cleaned path contains only alphanumerics and `_` |
| Client.MethodName | src/sdk/client-generator.ts:137-146 | the `operationId` verbatim; otherwise the verb followed by the capitalised `_`-separated parts of the cleaned path, which are alphanumeric |
| Client.ItemMethodName | src/sdk/client-generator.ts:137-146 | without an `operationId`, `/r/{p}` gives `verb + R + P`, e.g. `getPetsId` |
| Client.BuildPathDeclarations | src/sdk/client-generator.ts:101-104 | the `forEach` over path parameters builds `PathDeclarations` |
| Client.GenerateMethodForOperation | src/sdk/client-generator.ts:92-135 | the method text is that of `MethodText`, and it fails exactly when `MethodText` fails |
| Client.GenerateClient | src/sdk/client-generator.ts:10-45 | the client text is `ClientText`, and it fails exactly when a method fails |
| Postman.Example | src/postman/postman-generator.ts:151-191 | a failure is only the cyclic-reference `RangeError` |
| Postman.PropsExample | src/postman/postman-generator.ts:179-186 | an object example has exactly the properties as keys, in order |
| Postman.ExampleFuelMonotone | src/postman/postman-generator.ts:151-191 | the fuel is only a bound: more fuel gives the same example |
| Postman.RefExample | src/postman/postman-generator.ts:152-159 | a `$ref` resolves via `components.schemas[lastSegment]`, or gives `{}` |
| Postman.StringExample | src/postman/postman-generator.ts:162-167 | the string example ignores `example`: `enum[0]` with an enum, else the literal for `email`, `date` or `date-time`, else `string` |
| Postman.ScalarExample | src/postman/postman-generator.ts:169-190 | `number` and `integer` give `0`, `boolean` gives `true`, a missing or unknown type gives `null` |
| Postman.ArrayExample | src/postman/postman-generator.ts:176-177 | an array example is the one-element list of the item example, or `[]` |
| Postman.ObjectExampleKeys | src/postman/postman-generator.ts:179-186 | an object example includes every property |
| Postman.ExampleFromSchema | src/postman/postman-generator.ts:151-191 | the recursive generator with its property loop computes `Example` |
| Postman.ObjectFields | src/postman/postman-generator.ts:180-186 | the property loop of the object case computes `PropsExample`, stopping at the first error |
| Postman.ExampleText | src/postman/postman-generator.ts:193-197 | the text exists iff the example does; a string example as it is, anything else through `String` |
| Postman.ScalarExampleText | src/postman/postman-generator.ts:193-197 | the texts of the scalar examples are `0`, `true` and `null`, and an object prints as `[object Object]` |
| Postman.Variables | src/postman/postman-generator.ts:79-86 | the variables exist iff every path parameter's example text does; the i-th has the i-th parameter's name, example text and description |
| Postman.Queries | src/postman/postman-generator.ts:88-93 | the entries exist iff every query parameter's example text does; the i-th has the i-th parameter's name, example text and description, `disabled` iff not required |
| Text.NonEmpty | src/postman/postman-generator.ts:98 | `.filter(p => p)` keeps exactly the non-empty pieces: every kept piece is a non-empty piece of the input, and every non-empty piece of the input is kept |
| Text.NonEmptyAppend | src/postman/postman-generator.ts:98 | the filter keeps the order: filtering `a + b` gives the kept pieces of `a` followed by those of `b` |
| Postman.UrlShape | src/postman/postman-generator.ts:95-101 | `raw` is `{{baseUrl}}` + processed path, and with query parameters also `?` and the `key=value` pairs of the query entries joined by `&`; `query` and `variable` are absent iff empty and otherwise the entries of `Queries` and `Variables`; `host` is `{{baseUrl}}`; `path` is the non-empty `/`-pieces of the processed path |
| Postman.BuildUrl | src/postman/postman-generator.ts:75-102 | the loop reassigning the path and pushing variables computes `PostmanUrl` |
| Postman.HeaderEntries | src/postman/postman-generator.ts:107-113 | the headers exist iff every header parameter's example text does; the i-th has the i-th parameter's name, example text and description |
| Postman.HeadersShape | src/postman/postman-generator.ts:104-126 | header parameters in order, then exactly one `Content-Type` iff the body has an `application/json` key |
| Postman.BuildHeaders | src/postman/postman-generator.ts:104-126 | the loop and the final push compute `PostmanHeaders` |
| Postman.PostmanBody | src/postman/postman-generator.ts:128-149 | no body iff no `requestBody` or no `application/json` content; a JSON entry without a schema raises `TypeError` |
| Postman.ItemName | src/postman/postman-generator.ts:45 | the item name is the `operationId`, else `METHOD path` |
| Postman.PostmanItem | src/postman/postman-generator.ts:44-73 | the item is named `operationId`, else `METHOD path`; its method is the upper-cased verb; its description is the summary, else the description |
| Postman.ItemRequest | src/postman/postman-generator.ts:57-73 | the request's URL, headers and body are those of the path, query and header parameters and of the body; they are built in that order and the first failure is the item's |
| Postman.Items | src/postman/postman-generator.ts:32-39 | one item per operation |
| Postman.ItemsElements | src/postman/postman-generator.ts:32-39 | the items exist iff every operation's item does, and the i-th item is the i-th operation's |
| Postman.CollectionShape | src/postman/postman-generator.ts:11-42 | one item per operation, exactly one `baseUrl` variable, the v2.1 schema URL; the variable is the first server's non-empty URL, else the default |
| Postman.GenerateCollection | src/postman/postman-generator.ts:11-42 | the nested push loop computes `CollectionOf` |
| Curl.StringExample | src/postman/curl-generator.ts:98-104 | `enum[0]` with an enum, else the literal for `email`, `date`, `date-time` or `uuid`, else `example || "example"` |
| Curl.Example | src/postman/curl-generator.ts:87-136 | the draws only move forward, and a failure is only the cyclic-reference `RangeError` |
| Curl.PropsExample | src/postman/curl-generator.ts:121-131 | the keys of an object example are among the properties and include every required one |
| Curl.AllDrawsPassKeepsEveryProperty | src/postman/curl-generator.ts:124-129 | when every draw passes, every property appears, in order |
| Curl.NoDrawPassesKeepsRequired | src/postman/curl-generator.ts:124-129 | when no draw passes, exactly the required properties appear, in order |
| Curl.PropsPrefix | src/postman/curl-generator.ts:124-129 | the example of the first j properties succeeds and is a prefix of the whole object |
| Curl.PropKeptIffDraw | src/postman/curl-generator.ts:124-128 | the i-th property is added iff it is required or the draw at the current position passes |
| Curl.ScalarExamples | src/postman/curl-generator.ts:98-113 | `number` is `example || 42` and `integer` `example || 1` (so `0` gives 42 or 1); `boolean` is the example when defined, else `true`; strings are `StringExample`; no draw is made |
| Curl.StructuredExamples | src/postman/curl-generator.ts:115-134 | an array without items is `[]`; with items it is the one-element list of the item example, or its error; an unknown or missing type is `null` |
| Curl.ExampleText | src/postman/curl-generator.ts:138-144 | the text exists iff the example does; a string as it is, a number or boolean through `String`, anything else `example` |
| Curl.SubstitutePath | src/postman/curl-generator.ts:32-36 | the draws only move forward; without path parameters the path is unchanged and nothing is drawn |
| Curl.SubstituteOne | src/postman/curl-generator.ts:34-35 | one parameter replaces the first `{name}` by its example text, drawn at the current position |
| Curl.SubstituteWithoutPlaceholders | src/postman/curl-generator.ts:32-36 | a path containing no parameter's placeholder is left unchanged |
| Curl.SubstitutePathErr | src/postman/curl-generator.ts:33-36 | an error in the first j parameters is the error of the whole substitution |
| Curl.SubstituteParams | src/postman/curl-generator.ts:32-36 | the `forEach` reassigning the path computes `SubstitutePath` |
| Curl.KeptQueries | src/postman/curl-generator.ts:40-41 | kept query parameters are declared ones, and every required one is kept |
| Curl.KeptQueriesBounds | src/postman/curl-generator.ts:40-41 | all draws passing keeps every parameter, none passing keeps the required ones, and there is one draw per optional parameter |
| Curl.KeptPrefix | src/postman/curl-generator.ts:40-41 | filtering a prefix gives a prefix of the kept list |
| Curl.KeptQueryIffDraw | src/postman/curl-generator.ts:40-41 | the i-th parameter is kept iff it is required or the draw numbered by the optional parameters before it passes |
| Curl.QueryPairs | src/postman/curl-generator.ts:42-43 | one `name=` pair per kept parameter |
| Curl.QueryPairsElements | src/postman/curl-generator.ts:42-43 | the i-th pair is `name=` followed by the encoded example text, drawn where the pairs before it stopped |
| Curl.HeaderLines | src/postman/curl-generator.ts:53-55 | one header per header parameter |
| Curl.HeaderLinesElements | src/postman/curl-generator.ts:53-55 | the i-th header is `name: ` followed by the example text, drawn where the headers before it stopped |
| Curl.HeaderLinesErr | src/postman/curl-generator.ts:53-55 | an error in the first j headers is the error of the whole list |
| Curl.CollectHeaders | src/postman/curl-generator.ts:51-55 | the `forEach` pushing onto `headers` computes `HeaderLines` |
| Curl.BodyJson | src/postman/curl-generator.ts:57-68 | there is a `--data` body iff `application/json` is among the content types |
| Curl.HeaderFlags | src/postman/curl-generator.ts:70-72 | one `-H` per header, the i-th being `-H "<header>"` |
| Curl.PushHeaderFlags | src/postman/curl-generator.ts:70-72 | the `forEach` pushing the flags appends exactly `HeaderFlags` |
| Curl.Command | src/postman/curl-generator.ts:76-84 | the endpoint is `METHOD path` and the method is upper-cased |
| Curl.PushParts | src/postman/curl-generator.ts:49-74 | the pushes build the verb part, the `--data` part, one flag per header with the JSON `Content-Type` last, and the quoted URL |
| Curl.GenerateCommand | src/postman/curl-generator.ts:27-85 | the statements of `generateCurlCommand` compute `Command` |
| Curl.QueryMarkIffKept | src/postman/curl-generator.ts:38-47 | the URL has `?` and the query string iff some query parameter was kept |
| Curl.CommandEnds | src/postman/curl-generator.ts:49-82 | the command starts with `curl -X METHOD` and ends with the quoted URL |
| Curl.JsonBodyHasContentType | src/postman/curl-generator.ts:57-74 | with a JSON body, `--data '<json>'` is the second part and the `Content-Type` header is the last part before the URL |
| Curl.Curls | src/postman/curl-generator.ts:11-25 | one command per operation |
| Curl.CurlsEndpoints | src/postman/curl-generator.ts:11-25 | the i-th command is named `METHOD path` after the i-th operation |
| Curl.GenerateCurls | src/postman/curl-generator.ts:11-25 | the push loop computes `SpecCurls` with one shared stream of draws |
| Curl.CurlsTextAppend | src/postman/curl-generator.ts:146-162 | the text starts with the two header lines, is only those with no commands, and appending a command appends its block |
| Curl.BlockDescription | src/postman/curl-generator.ts:152-156 | a block's first line carries ` - description` iff the description is truthy |
| Curl.AppendBlock | src/postman/curl-generator.ts:152-158 | the five appends of one loop turn add exactly that command's block to the text |
| Curl.GenerateCurlsAsText | src/postman/curl-generator.ts:146-162 | generating the commands and then appending their blocks computes `SpecCurlsText` |
| Curl.SpecCurlsText | src/postman/curl-generator.ts:146-162 | the listing exists iff the commands do, and otherwise carries their error; it is `CurlsText` of the generated commands, starts with the header, and is only the header without operations |
| Curl.RenderCurls | src/postman/curl-generator.ts:148-161 | the header appends and the appending loop compute `CurlsText` of the given commands |
| Sdk.ExtractTypeNames | src/sdk/generator.ts:56-66 | the type names are the registry keys, in insertion order |
| Sdk.TypeNamesEmpty | src/sdk/generator.ts:59-63 | there are no type names iff the registry is missing or empty |
| Sdk.ImportStatement | src/sdk/generator.ts:33-35 | the import line is empty iff there are no type names |
| Sdk.ImportStatementShape | src/sdk/generator.ts:33-35 | a non-empty import line begins `import { ` with the first name, and ends with the last name, `} from './types';` and a blank line |
| Sdk.GenerateShape | src/sdk/generator.ts:28-47 | the files are the types, the import line followed by the client, and the fixed index |
| Sdk.GenerateSdk | src/sdk/generator.ts:16-54 | a fresh generator and the client generator produce `Generate`; it fails when either raises |
| Cli.Validate | src/cli/postman-cli.ts:62-71 | the input is accepted iff it exists and its lower-cased extension is `.json`, `.yaml` or `.yml` |
| Cli.ExtName | src/cli/postman-cli.ts:67 | empty iff the last segment has no `.` after its first character or is `..`; otherwise a `.`-led suffix of the last segment with no further `.` |
| Cli.Scan | src/cli/postman-cli.ts:44-59 | the accepted format is the starting one or one of the tool's two |
| Cli.ScanOptions | src/cli/postman-cli.ts:44-59 | the index loop skipping option values computes `Scan` |
| Cli.ScanPrefix | src/cli/postman-cli.ts:44-59 | scanning a list that does not end in a flag reaches its end with that list's options and carries on from there; an error stays |
| Cli.ScanLastWins | src/cli/postman-cli.ts:44-59 | for every argument list that does not end in a flag (a trailing flag would take the appended flag as its value), an appended `-o x` sets the output to `x`, an appended `-f x` sets a valid format or fails with `x`, and an appended unknown argument changes nothing |
| Cli.ChooseJob | src/cli/postman-cli.ts:31-77 | the decision sequence of `main` computes `Decide` |
| Cli.UsageIffHelp | src/cli/postman-cli.ts:34-37 | usage iff no arguments or `--help`/`-h` anywhere |
| Cli.FormatCheckedBeforeFile | src/cli/postman-cli.ts:49-57 | an invalid format fails during option parsing, whatever the file system says |
| Cli.MissingFileFirst | src/cli/postman-cli.ts:62-65 | a missing input is reported before the extension is tested |
| Cli.RunIsValid | dist/graphql-cli.js:95-107 | a run's input is the first argument, exists and has an accepted extension, and its format is one of the two; when the tools' two outputs differ, the second format never writes to the first one's default |
| Cli.CurlRenamesExplicitCollection | src/cli/postman-cli.ts:73-76 | `--output collection.json --format curl` writes `curls.txt` |
| Cli.LastOutputWins | dist/graphql-cli.js:76-81 | of two `-o` options the last wins |
| Cli.AppendedOutputWins | dist/graphql-cli.js:76-107 | for every argument list that runs, appending `-o x` runs the same job writing to `x`, except that the tool's renaming of its default output still applies |
| Cli.TrailingOutputIsUndefined | src/cli/postman-cli.ts:46-48 | `--output` as the last argument leaves the output undefined, and the run exits with 1 |
| Cli.UpperCaseExtensionAcceptedByCli | src/cli/postman-cli.ts:67-71 | `API.JSON` passes the command-line check but `parse` rejects it |
| Cli.SdkDecisions | src/cli/cli.ts:27-44 | usage iff a help request; then a missing file, then a bad extension; the output directory is `args[1]`, or `./generated` when absent or empty |
| Cli.ExitCode | src/cli/cli.ts:46-52 | exit 0 iff usage or a run that did not raise |
| Cli.JobExitCode | src/cli/postman-cli.ts:113-116 | a run without an output path exits with 1 |
| Cli.GraphQLOutput | dist/graphql-cli.js:113-131 | format `schema` writes the SDL, which starts with the header; format `json` writes the serialised structure |

## Left out

- File and process I/O is not modelled. This covers reading, writing, creating directories, console output and `process.exit`. File existence is a parameter, and exits are values of `Cli.ExitCode`.
- YAML and JSON parsing are not modelled. The generators take the parsed `Spec`.
- `JSON.stringify`, `encodeURIComponent` and the emitted `request<T>` helper text are parameters with no behaviour of their own.
- `Math.random()` is a boolean stream. The thresholds 0.3 and 0.5 only name which draw is tested; the distribution is not modelled.
- Cyclic `$ref` chains in the example generators do not terminate in the source. The model bounds the recursion by `fuel`, and running out gives `RangeError`. More fuel never changes a successful example (`Postman.ExampleFuelMonotone`); that an acyclic registry succeeds for some fuel is not proved.
- Numbers are integers only. Floating-point examples and `String` of a non-integer are not modelled.
- Case mapping covers ASCII letters only.
- `Cli.ExtName` takes the segment after the last `/`. It does not strip trailing slashes as Node's `path.extname` does; a last segment of `..` has no extension, as in Node.
- An object with a repeated property name gets the key twice in the model. JavaScript overwrites the earlier value instead. All key lists are stated as sequences with possible duplicates.
- The Postman item's always-empty `response` list is left out. So are the constant raw-body options and the console summaries of the two command-line tools.
- The `dist/` copies of the TypeScript sources are not modelled, and neither are the declaration files. Only the GraphQL command-line tool is taken from `dist/`.
- `Client.GenerateClient`: on failure it states only that the run fails, not which exception. Every failure of the client emitter is a `TypeError`.
- `Sdk.GenerateSdk`: on failure it states only that generation fails, not which generator raised.
- `Curl.Command`: its own contract states the endpoint, the method and that draws only move forward. The order of the draws (path parameters, then the query filter, then the query values, then the headers, then the body) is stated only by its definition, which `Curl.GenerateCommand` follows statement by statement. The shape of the command text is stated separately by `Curl.CommandEnds`, `Curl.QueryMarkIffKept` and `Curl.JsonBodyHasContentType`.
- `Text.ReplaceFirst` inserts the replacement literally. JavaScript's `replace` expands `$&`, `$$`, `` $` `` and `$'` in it, so an example text holding those patterns is substituted differently by `Curl.SubstitutePath`. The client's replacement `${name}` holds none of them unless the parameter name contains `$`.
- `OpenApi.SpecValue` holds only the declared fields of the document. A `$ref` into an undeclared part, such as `#/x-ext/…`, resolves in `resolveRef` but fails in `Parser.ResolveRef`.
- Inherited object keys such as `constructor` and `__proto__` are not modelled. In the source, `current[part]` and `schemas[refName]` find them on every object; in the model such a lookup finds only declared keys.
- `GraphQL.EnumValueName`: strings are sequences of Unicode scalar values, not UTF-16 code units as in JavaScript. The regular expression at graphql-generator.ts:100 lacks the `u` flag, so it replaces each surrogate of a character outside the Basic Multilingual Plane on its own. The enum value `"😀"` gives `__` in the source and `_` in the model, and the "one character per character" clause counts scalar values, not code units. The other string operations remove such characters or keep them whole, so they are unaffected.
- Key order is document order everywhere. JavaScript's `Object.entries` lists integer-like keys (`0`, `10`, `200`) first, in ascending numeric order, and only then the other keys in insertion order. So a schema whose properties are `b` and then `1` gets its members, fields and example keys in a different order in the model than in the source.
- `Values.Get` returns the first entry with a repeated key. A JavaScript object parsed from such a document keeps the last one.
