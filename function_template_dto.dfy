/** The request body for creating a function template: the field constraints declared on
    `FunctionTemplateItemDto` and `CreateFunctionTemplateDto`, as validity predicates over
    the parsed JSON body (the validators run on every field, present or not). */
module FunctionTemplateDto {
  import opened Wrappers
  import opened Js

  const MAX_ITEM_NAME: nat := 256
  const MAX_ITEM_DESCRIPTION: nat := 256
  const MAX_CODE: nat := 1024 * 512
  const MAX_TEMPLATE_NAME: nat := 64
  const MIN_TEMPLATE_DESCRIPTION: nat := 8
  const MAX_TEMPLATE_DESCRIPTION: nat := 256
  const MAX_ITEMS: nat := 20

  /** `@IsNotEmpty()`: anything but '', null and undefined (an empty array passes). */
  predicate IsNotEmpty(v: Value) { v != Str("") && !v.Null? && !v.Undefined? }

  /** `@IsString()`. */
  predicate IsString(v: Value) { v.Str? }

  /** `@MaxLength(n)` / `@MinLength(n)`: a string of at most / at least n characters. */
  predicate MaxLength(v: Value, n: nat) { v.Str? && |v.s| <= n }
  predicate MinLength(v: Value, n: nat) { v.Str? && |v.s| >= n }

  /** `@IsBoolean()`. */
  predicate IsBoolean(v: Value) { v.Bool? }

  /** `@ArrayMaxSize(n)`: an array of at most n elements. */
  predicate ArrayMaxSize(v: Value, n: nat) { v.Arr? && |v.items| <= n }

  /** `@IsIn(allowed, { each: true })`: every element of an array, or the value itself when
      it is not an array, is one of the allowed strings. */
  predicate IsInEach(v: Value, allowed: seq<string>) {
    if v.Arr? then forall i :: 0 <= i < |v.items| ==> v.items[i].Str? && v.items[i].s in allowed
    else v.Str? && v.s in allowed
  }

  /** `@ValidateNested({ each: true })`: undefined is skipped, an array has each element
      checked, an object is checked by the nested class's rules, anything else fails. */
  predicate ValidateNested(v: Value, nested: Value -> bool)
    decreases v
  {
    match v
    case Undefined => true
    case Arr(items) => forall i :: 0 <= i < |items| ==> ValidateNested(items[i], nested)
    case Obj(_) => nested(v)
    case _ => false
  }

  /** The characters `[a-zA-Z0-9_.\-\/]`. */
  predicate IsItemNameChar(c: char) {
    ('a' <= c <= 'z') || ('A' <= c <= 'Z') || ('0' <= c <= '9') || c == '_' || c == '.' || c == '-' || c == '/'
  }

  /** `@Matches(/^[a-zA-Z0-9_.\-\/]{1,256}$/)`. */
  predicate MatchesItemName(v: Value) {
    v.Str? && 1 <= |v.s| <= MAX_ITEM_NAME && forall i :: 0 <= i < |v.s| ==> IsItemNameChar(v.s[i])
  }

  /** An item's `methods`, `[]` when the body leaves it out. */
  function ItemMethods(item: Value): Value {
    if item.Obj? && "methods" in item.fields then item.fields["methods"] else Arr([])
  }

  /** The constraints of `FunctionTemplateItemDto`. */
  predicate ItemValid(item: Value, httpMethods: seq<string>) {
    var name, description, code := Prop(item, "name"), Prop(item, "description"), Prop(item, "code");
    && item.Obj?
    && IsNotEmpty(name) && MatchesItemName(name)
    && MaxLength(description, MAX_ITEM_DESCRIPTION)
    && IsInEach(ItemMethods(item), httpMethods)
    && IsNotEmpty(code) && IsString(code) && MaxLength(code, MAX_CODE)
  }

  /** `FunctionTemplateItemDto.validate()`: no further check. */
  function ItemValidate(item: Value): (r: Option<string>)
    ensures r.None?
  {
    None
  }

  /** The constraints of `CreateFunctionTemplateDto`; the nested dependency and environment
      rules are those of their own classes. */
  predicate TemplateValid(dto: Value, httpMethods: seq<string>, dependencyValid: Value -> bool, environmentValid: Value -> bool) {
    var name, dependencies, environments := Prop(dto, "name"), Prop(dto, "dependencies"), Prop(dto, "environments");
    var isPrivate, description, items := Prop(dto, "private"), Prop(dto, "description"), Prop(dto, "items");
    && dto.Obj?
    && IsNotEmpty(name) && IsString(name) && MaxLength(name, MAX_TEMPLATE_NAME)
    && IsNotEmpty(dependencies) && ValidateNested(dependencies, dependencyValid)
    && ValidateNested(environments, environmentValid)
    && IsBoolean(isPrivate)
    && IsString(description) && MinLength(description, MIN_TEMPLATE_DESCRIPTION) && MaxLength(description, MAX_TEMPLATE_DESCRIPTION)
    && IsNotEmpty(items) && ValidateNested(items, (i: Value) => ItemValid(i, httpMethods)) && ArrayMaxSize(items, MAX_ITEMS)
  }

  // ---------------------------------------------------------------------------
  // Properties

  /** An item name is valid exactly when it is a string of 1 to 256 characters from
      `[a-zA-Z0-9_./-]`. */
  lemma ItemNameRule(v: Value)
    ensures IsNotEmpty(v) && MatchesItemName(v) <==>
      v.Str? && 1 <= |v.s| <= 256 && forall i :: 0 <= i < |v.s| ==> IsItemNameChar(v.s[i])
  {
  }

  /** An item's methods may be left out; a given list must hold only allowed methods. */
  lemma ItemMethodsRule(item: Value, httpMethods: seq<string>)
    requires item.Obj?
    ensures "methods" !in item.fields ==> IsInEach(ItemMethods(item), httpMethods)
    ensures "methods" in item.fields && item.fields["methods"].Arr? ==>
      (IsInEach(ItemMethods(item), httpMethods) <==>
        forall i :: 0 <= i < |item.fields["methods"].items| ==>
          item.fields["methods"].items[i] in seq(|httpMethods|, k requires 0 <= k < |httpMethods| => Str(httpMethods[k])))
  {
    if "methods" in item.fields && item.fields["methods"].Arr? {
      var ms := item.fields["methods"].items;
      var strs := seq(|httpMethods|, k requires 0 <= k < |httpMethods| => Str(httpMethods[k]));
      forall i | 0 <= i < |ms|
        ensures (ms[i].Str? && ms[i].s in httpMethods) <==> ms[i] in strs
      {
        if ms[i].Str? && ms[i].s in httpMethods {
          var k :| 0 <= k < |httpMethods| && httpMethods[k] == ms[i].s;
          assert strs[k] == ms[i];
        }
      }
    }
  }

  /** An item's code is a non-empty string of at most 524288 characters, its description a
      string of at most 256; a missing description fails. */
  lemma ItemCodeAndDescription(item: Value, httpMethods: seq<string>)
    requires ItemValid(item, httpMethods)
    ensures var code := Prop(item, "code");
      code.Str? && 1 <= |code.s| <= 524288
    ensures var d := Prop(item, "description");
      d.Str? && |d.s| <= 256
  {
  }

  /** Template bounds: a name of 1 to 64 characters, a description of 8 to 256, a boolean
      `private`, present dependencies, and an array of at most 20 items, each object among
      them a valid item and none of them null or a primitive. */
  lemma TemplateRules(dto: Value, httpMethods: seq<string>, dependencyValid: Value -> bool, environmentValid: Value -> bool)
    requires TemplateValid(dto, httpMethods, dependencyValid, environmentValid)
    ensures var name := Prop(dto, "name"); name.Str? && 1 <= |name.s| <= 64
    ensures var d := Prop(dto, "description"); d.Str? && 8 <= |d.s| <= 256
    ensures Prop(dto, "private").Bool?
    ensures var deps := Prop(dto, "dependencies"); (deps.Arr? || deps.Obj?)
    ensures var items := Prop(dto, "items");
      && items.Arr? && |items.items| <= 20
      && (forall i :: 0 <= i < |items.items| && items.items[i].Obj? ==> ItemValid(items.items[i], httpMethods))
      && (forall i :: 0 <= i < |items.items| ==> items.items[i].Undefined? || items.items[i].Arr? || items.items[i].Obj?)
  {
    var name := Prop(dto, "name");
    assert name != Str("");
    var items := Prop(dto, "items");
    forall i | 0 <= i < |items.items|
      ensures items.items[i].Obj? ==> ItemValid(items.items[i], httpMethods)
      ensures items.items[i].Undefined? || items.items[i].Arr? || items.items[i].Obj?
    {
      assert ValidateNested(items.items[i], (x: Value) => ItemValid(x, httpMethods));
    }
  }

  /** An empty `items` array passes `@IsNotEmpty()`, so a template may have no items. */
  lemma EmptyItemsAccepted(dto: Value, httpMethods: seq<string>, dependencyValid: Value -> bool, environmentValid: Value -> bool)
    requires TemplateValid(dto, httpMethods, dependencyValid, environmentValid)
    ensures TemplateValid(Obj(dto.fields["items" := Arr([])]), httpMethods, dependencyValid, environmentValid)
  {
    var d2 := Obj(dto.fields["items" := Arr([])]);
    assert Prop(d2, "items") == Arr([]);
    assert Prop(d2, "name") == Prop(dto, "name");
    assert Prop(d2, "dependencies") == Prop(dto, "dependencies");
    assert Prop(d2, "environments") == Prop(dto, "environments");
    assert Prop(d2, "private") == Prop(dto, "private");
    assert Prop(d2, "description") == Prop(dto, "description");
  }
}
