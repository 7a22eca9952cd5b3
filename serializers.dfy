/**
 * The checks and lookups of api/serializers.py: the signup field checks of
 * UserCreateSerializer, the ingredient entries and ingredient list of RecipeWriteSerializer,
 * the per-user flags, and UserWithRecipesSerializer.get_recipes.
 */
module Serializers {
  import opened Wrappers
  import opened Http
  import opened Schema
  import Validators

  // ---------------------------------------------------------------------------------------
  // UserCreateSerializer

  const UsernameLengthMessage: string := "username should be shorter than 150 unicode codeunits"
  const NameLengthMessage: string := "name should be shorter than 255 unicode codeunits"
  const FirstNameLengthMessage: string := "Name must be shorter than 150 characters."
  const LastNameLengthMessage: string := "Surname must be shorter than 150 characters."
  const PasswordLengthMessage: string := "Password must be shorter than 150 characters."
  /** The bound of UserCreateSerializer.validate_name. */
  const MaxNameFieldLength: nat := 254

  /** The shape of validate_first_name, validate_last_name and validate_password: refuse a
      value longer than `limit` code points with `message`, return it otherwise. */
  function LengthCheck(value: string, limit: nat, message: string): (r: Validators.Verdict)
    ensures r == Validators.Accepted <==> |value| <= limit
    ensures r.Rejected? ==> r.message == message
  {
    if |value| > limit then Validators.Rejected(message) else Validators.Accepted
  }

  /** validate_username: the character validator runs first and its refusal wins; then the
      150 code-point bound. */
  function ValidateUsernameField(value: string): (r: Validators.Verdict)
    ensures r == Validators.Accepted <==>
              Validators.ValidateUsername(value) == Validators.Accepted && |value| <= MaxUserFieldLength
    ensures Validators.ValidateUsername(value).Rejected? ==> r == Validators.ValidateUsername(value)
  {
    var v := Validators.ValidateUsername(value);
    if v.Rejected? then v else LengthCheck(value, MaxUserFieldLength, UsernameLengthMessage)
  }

  /** validate_name of UserCreateSerializer: the name validator, then at most 254 code points.
      The user model has no `name` field, so the framework never calls this hook. */
  function ValidateNameField(value: string): (r: Validators.Verdict)
    ensures r == Validators.Accepted <==>
              Validators.AllInClass(value, Validators.NameChars) && |value| <= MaxNameFieldLength
  {
    Validators.NameAcceptedIff(value);
    var v := Validators.ValidateName(value);
    if v.Rejected? then v else LengthCheck(value, MaxNameFieldLength, NameLengthMessage)
  }

  /** Signup data that passes the serializer's checks (first and last name are required,
      non-blank fields) makes a user row within the model's bounds. */
  lemma AcceptedSignupFitsUserModel(email: string, username: string, firstName: string, lastName: string, password: string)
    requires ValidateUsernameField(username) == Validators.Accepted
    requires LengthCheck(firstName, MaxUserFieldLength, FirstNameLengthMessage) == Validators.Accepted
    requires LengthCheck(lastName, MaxUserFieldLength, LastNameLengthMessage) == Validators.Accepted
    requires LengthCheck(password, MaxUserFieldLength, PasswordLengthMessage) == Validators.Accepted
    requires firstName != "" && lastName != ""
    ensures ValidUser(User(email, username, firstName, lastName))
  {
  }

  // ---------------------------------------------------------------------------------------
  // IngredientInRecipeWriteSerializer and RecipeWriteSerializer.validate_ingredients

  /** One submitted ingredient: `{"id": ..., "amount": ...}`. */
  datatype IngredientEntry = IngredientEntry(id: IngredientId, amount: int)

  /** IngredientInRecipeWriteSerializer: amount is an integer >= 1 and validate_id finds the
      ingredient. */
  predicate EntryValid(e: IngredientEntry, known: set<IngredientId>) {
    e.amount >= MinAmount && e.id in known
  }

  const NoIngredientsMessage: string := "Must have at least one ingredient."
  const DuplicateIngredientsMessage: string := "Ingredients must be unique."

  function Ids(value: seq<IngredientEntry>): (ids: seq<IngredientId>)
    ensures |ids| == |value| && forall i :: 0 <= i < |value| ==> ids[i] == value[i].id
  {
    seq(|value|, i requires 0 <= i < |value| => value[i].id)
  }

  function SetOf(s: seq<int>): set<int> {
    set x | x in s
  }

  predicate Distinct(s: seq<int>) {
    forall i, j :: 0 <= i < j < |s| ==> s[i] != s[j]
  }

  lemma {:induction false} SetOfSize(s: seq<int>)
    ensures |SetOf(s)| <= |s|
    ensures |SetOf(s)| == |s| <==> Distinct(s)
  {
    if s != [] {
      var t := s[1..];
      SetOfSize(t);
      assert SetOf(s) == {s[0]} + SetOf(t);
      if s[0] in t {
        assert SetOf(s) == SetOf(t);
        var j :| 0 <= j < |t| && t[j] == s[0];
        assert s[0] == s[j + 1];
      } else {
        assert |SetOf(s)| == |SetOf(t)| + 1;
        if Distinct(t) {
          forall i, j | 0 <= i < j < |s| ensures s[i] != s[j] {
            if i > 0 { assert s[i] == t[i - 1] && s[j] == t[j - 1]; }
            else { assert s[j] == t[j - 1]; }
          }
        }
        if Distinct(s) {
          forall i, j | 0 <= i < j < |t| ensures t[i] != t[j] {
            assert t[i] == s[i + 1] && t[j] == s[j + 1];
          }
        }
      }
    }
  }

  /** validate_ingredients: refuse an empty list; refuse `len(set(ids)) != len(ids)`;
      otherwise return the list unchanged. */
  function ValidateIngredients(value: seq<IngredientEntry>): (r: Result<seq<IngredientEntry>, string>)
    ensures r.Ok? ==> r.value == value
    ensures value == [] ==> r == Err(NoIngredientsMessage)
  {
    if |value| == 0 then Err(NoIngredientsMessage)
    else if |SetOf(Ids(value))| != |Ids(value)| then Err(DuplicateIngredientsMessage)
    else Ok(value)
  }

  /** The set-size test of validate_ingredients refuses exactly the lists that repeat an id. */
  lemma ValidateIngredientsIff(value: seq<IngredientEntry>)
    ensures ValidateIngredients(value).Ok? <==> value != [] && Distinct(Ids(value))
    ensures value != [] && !Distinct(Ids(value)) ==> ValidateIngredients(value) == Err(DuplicateIngredientsMessage)
  {
    SetOfSize(Ids(value));
  }

  // ---------------------------------------------------------------------------------------
  // The framework's CharField: trim_whitespace=True and allow_blank=False by default

  /** The first position at or after `i` that is not whitespace (`|s|` if there is none). */
  function SkipSpaces(s: string, i: nat): (k: nat)
    requires i <= |s|
    ensures i <= k <= |s|
    ensures forall m :: i <= m < k ==> Validators.IsRegexSpace(s[m])
    ensures k < |s| ==> !Validators.IsRegexSpace(s[k])
    decreases |s| - i
  {
    if i < |s| && Validators.IsRegexSpace(s[i]) then SkipSpaces(s, i + 1) else i
  }

  /** The end of `s[..j]` once its trailing whitespace is dropped. */
  function SkipSpacesBack(s: string, j: nat): (k: nat)
    requires j <= |s|
    ensures k <= j
    ensures forall m :: k <= m < j ==> Validators.IsRegexSpace(s[m])
    ensures k > 0 ==> !Validators.IsRegexSpace(s[k - 1])
  {
    if j > 0 && Validators.IsRegexSpace(s[j - 1]) then SkipSpacesBack(s, j - 1) else j
  }

  /** Neither end of `s` is whitespace. */
  predicate Trimmed(s: string) {
    s == [] || (!Validators.IsRegexSpace(s[0]) && !Validators.IsRegexSpace(s[|s| - 1]))
  }

  /** `str.strip()`, which CharField applies to its input: no whitespace is left at either
      end (StripSpec says what is kept). */
  function Strip(s: string): (r: string)
    ensures |r| <= |s| && Trimmed(r)
  {
    var lo := SkipSpaces(s, 0);
    var hi := SkipSpacesBack(s, |s|);
    if lo < hi then s[lo..hi] else []
  }

  /** strip() keeps the middle of `s` between the leading whitespace (the first `lead`
      characters) and the trailing whitespace, and gives "" exactly when `s` is all
      whitespace. */
  lemma StripSpec(s: string)
    ensures var lead := SkipSpaces(s, 0); var r := Strip(s);
            && lead + |r| <= |s| && r == s[lead..lead + |r|]
            && (forall k :: 0 <= k < lead ==> Validators.IsRegexSpace(s[k]))
            && (forall k :: lead + |r| <= k < |s| ==> Validators.IsRegexSpace(s[k]))
    ensures Strip(s) == [] <==> forall k :: 0 <= k < |s| ==> Validators.IsRegexSpace(s[k])
  {
    var lo := SkipSpaces(s, 0);
    var hi := SkipSpacesBack(s, |s|);
    if lo < |s| {
      assert !Validators.IsRegexSpace(s[lo]);
      assert lo < hi;
    } else {
      assert Strip(s) == [];
    }
  }

  /** A value with no whitespace at its ends is left alone by strip(). */
  lemma StripTrimmed(s: string)
    requires Trimmed(s)
    ensures Strip(s) == s
  {
  }

  /** strip() is idempotent: a stored value validates back to itself. */
  lemma StripIdempotent(s: string)
    ensures Strip(Strip(s)) == Strip(s)
  {
    StripTrimmed(Strip(s));
  }

  /** A CharField's checks on the value `to_internal_value` produced (the stripped input): not
      blank, at most `maxLength` code points, and no NUL character (the field's
      ProhibitNullCharactersValidator). */
  predicate CharFieldValid(value: string, maxLength: nat) {
    var v := Strip(value);
    v != [] && |v| <= maxLength && '\0' !in v
  }

  // ---------------------------------------------------------------------------------------
  // RecipeWriteSerializer field validation

  /** The writable fields of a recipe (the image is not modelled). Tags may repeat; the
      framework's list of primary keys allows an empty list. */
  datatype RecipeDraft = RecipeDraft(
    ingredients: seq<IngredientEntry>,
    tags: seq<TagId>,
    name: string,
    text: string,
    cookingTime: int)

  /** The fields a validation error can be reported on; the framework collects them all. */
  datatype Field = IngredientsField | TagsField | NameField | TextField | CookingTimeField

  /** RecipeWriteSerializer.name: CharField(max_length=200). */
  const MaxRecipeNameLength: nat := 200

  predicate IngredientsFieldValid(value: seq<IngredientEntry>, known: set<IngredientId>) {
    (forall e :: e in value ==> EntryValid(e, known)) && ValidateIngredients(value).Ok?
  }

  /** The `name` field: a CharField(max_length=200) whose stripped value goes through the
      validate_name hook. */
  predicate NameFieldValid(name: string) {
    CharFieldValid(name, MaxRecipeNameLength) && Validators.ValidateName(Strip(name)) == Validators.Accepted
  }

  /** The fields with an error, as the serializer is written. `name` and `text` are CharFields
      (the model's TextField maps to one): each is stripped, must not be blank and is bounded
      by its max_length, and the stripped name goes through validate_name. `cooking_time` is
      redeclared as IntegerField(min_value=1), which replaces the model field and with it the
      model's MaxValueValidator(600). */
  function DraftErrorsAsWritten(d: RecipeDraft, known: set<IngredientId>, tagIds: set<TagId>): set<Field> {
    (if IngredientsFieldValid(d.ingredients, known) then {} else {IngredientsField})
    + (if forall t :: t in d.tags ==> t in tagIds then {} else {TagsField})
    + (if NameFieldValid(d.name) then {} else {NameField})
    + (if CharFieldValid(d.text, MaxTextLength) then {} else {TextField})
    + (if d.cookingTime >= MinCookingTime then {} else {CookingTimeField})
  }

  /** The validation with the model's upper bound on cooking_time restored. */
  function DraftErrors(d: RecipeDraft, known: set<IngredientId>, tagIds: set<TagId>): set<Field> {
    DraftErrorsAsWritten(d, known, tagIds)
    + (if d.cookingTime <= MaxCookingTime then {} else {CookingTimeField})
  }

  /** The recipe row that create() inserts for a draft: name and text as the fields
      stripped them. */
  function DraftRecipe(d: RecipeDraft, id: RecipeId, author: Option<UserId>): Recipe {
    Recipe(id, author, Strip(d.name), Strip(d.text), d.cookingTime)
  }

  /** The IngredientRecipe rows inserted for a recipe: one per entry, carrying its id and amount. */
  function RowsFor(recipe: RecipeId, entries: seq<IngredientEntry>): (rows: seq<IngredientRow>)
    ensures |rows| == |entries|
    ensures forall i :: 0 <= i < |entries| ==>
              rows[i] == IngredientRow(recipe, entries[i].id, entries[i].amount)
  {
    seq(|entries|, i requires 0 <= i < |entries| => IngredientRow(recipe, entries[i].id, entries[i].amount))
  }

  /** A draft without errors yields a recipe row within the model's bounds and ingredient rows
      that reference known ingredients, carry amounts >= 1 and are unique per ingredient. */
  lemma AcceptedDraftFitsSchema(d: RecipeDraft, known: set<IngredientId>, tagIds: set<TagId>, id: RecipeId, author: Option<UserId>)
    requires DraftErrors(d, known, tagIds) == {}
    ensures ValidRecipe(DraftRecipe(d, id, author))
    ensures Trimmed(DraftRecipe(d, id, author).name) && Trimmed(DraftRecipe(d, id, author).text)
    ensures RowsUnique(RowsFor(id, d.ingredients))
    ensures forall row :: row in RowsFor(id, d.ingredients) ==> ValidAmount(row) && row.ingredient in known && row.recipe == id
    ensures |d.ingredients| > 0
    ensures forall t :: t in d.tags ==> t in tagIds
  {
    assert IngredientsFieldValid(d.ingredients, known);
    ValidateIngredientsIff(d.ingredients);
    var rows := RowsFor(id, d.ingredients);
    forall row | row in rows ensures ValidAmount(row) && row.ingredient in known {
      var i :| 0 <= i < |rows| && rows[i] == row;
      assert d.ingredients[i] in d.ingredients;
    }
    forall i, j | 0 <= i < j < |rows|
      ensures (rows[i].recipe, rows[i].ingredient) != (rows[j].recipe, rows[j].ingredient)
    {
      assert Ids(d.ingredients)[i] != Ids(d.ingredients)[j];
    }
  }

  /** A name or text that is empty or all whitespace is refused on its own field. */
  lemma BlankRefused(d: RecipeDraft, known: set<IngredientId>, tagIds: set<TagId>)
    ensures (forall k :: 0 <= k < |d.name| ==> Validators.IsRegexSpace(d.name[k]))
              ==> NameField in DraftErrorsAsWritten(d, known, tagIds)
    ensures (forall k :: 0 <= k < |d.text| ==> Validators.IsRegexSpace(d.text[k]))
              ==> TextField in DraftErrorsAsWritten(d, known, tagIds)
  {
  }

  /** Submitting the stored name and text again is accepted and stores the same row. */
  lemma ResubmitIsStable(d: RecipeDraft, known: set<IngredientId>, tagIds: set<TagId>, id: RecipeId, author: Option<UserId>)
    requires DraftErrors(d, known, tagIds) == {}
    ensures var again := d.(name := DraftRecipe(d, id, author).name, text := DraftRecipe(d, id, author).text);
            DraftErrors(again, known, tagIds) == {} && DraftRecipe(again, id, author) == DraftRecipe(d, id, author)
  {
    var again := d.(name := Strip(d.name), text := Strip(d.text));
    StripIdempotent(d.name);
    StripIdempotent(d.text);
    assert DraftErrorsAsWritten(again, known, tagIds) == DraftErrorsAsWritten(d, known, tagIds) by {
      assert Strip(again.name) == Strip(d.name) && Strip(again.text) == Strip(d.text);
    }
  }

  /** As written, a draft with cooking_time 601 and otherwise valid fields passes validation,
      and the recipe row it produces breaks the model's 1..600 bound; the corrected
      validation refuses it on cooking_time alone. */
  lemma AsWrittenAcceptsCookingTimeAbove600()
    ensures var d := RecipeDraft([IngredientEntry(1, 1)], [], "Soup", "Boil.", 601);
            && DraftErrorsAsWritten(d, {1}, {}) == {}
            && !ValidRecipe(DraftRecipe(d, 1, None))
            && DraftErrors(d, {1}, {}) == {CookingTimeField}
  {
    var d := RecipeDraft([IngredientEntry(1, 1)], [], "Soup", "Boil.", 601);
    StripTrimmed(d.name);
    StripTrimmed(d.text);
    Validators.NameAcceptedIff("Soup");
    ValidateIngredientsIff(d.ingredients);
    assert Ids(d.ingredients) == [1];
    assert DraftRecipe(d, 1, None).cookingTime == 601;
  }

  // ---------------------------------------------------------------------------------------
  // get_is_favorited, get_is_in_shopping_cart, get_is_subscribed

  /** The per-user flags: false for the anonymous user, otherwise whether the
      (user, target) row exists in the relation. */
  function PairFlag(requester: Requester, rel: PairTable, target: int): (r: bool)
    ensures requester.Anonymous? ==> !r
    ensures requester.Account? ==> (r <==> (requester.id, target) in rel)
  {
    match requester
    case Anonymous => false
    case Account(id, _, _) => (id, target) in rel
  }

  // ---------------------------------------------------------------------------------------
  // UserWithRecipesSerializer.get_recipes

  /** The outcome of `int(recipes_limit)` on the query parameter, or its absence. */
  datatype Limit = NoLimit | IntLimit(n: int) | NotInteger

  datatype RecipesError =
    | BadRequest        // int() raised ValueError
    | NegativeIndexing  // the queryset refuses a negative slice bound

  /** Recipes are kept in creation order, which gives increasing ids. */
  predicate IdsIncreasing(rs: seq<Recipe>) {
    forall i, j :: 0 <= i < j < |rs| ==> rs[i].id < rs[j].id
  }

  predicate IdsDecreasing(rs: seq<Recipe>) {
    forall i, j :: 0 <= i < j < |rs| ==> rs[i].id > rs[j].id
  }

  /** `instance.recipes`: the recipes whose author is `author`, in creation order. */
  function AuthoredBy(rs: seq<Recipe>, author: UserId): (r: seq<Recipe>)
    ensures forall x :: x in r <==> x in rs && x.author == Some(author)
    ensures |r| <= |rs|
    ensures IdsIncreasing(rs) ==> IdsIncreasing(r)
  {
    if rs == [] then []
    else
      var rest := AuthoredBy(rs[1..], author);
      assert forall x :: x in rs[1..] ==> x in rs;
      if rs[0].author == Some(author) then [rs[0]] + rest else rest
  }

  function Reverse(s: seq<Recipe>): (r: seq<Recipe>)
    ensures |r| == |s| && forall i :: 0 <= i < |s| ==> r[i] == s[|s| - 1 - i]
  {
    seq(|s|, i requires 0 <= i < |s| => s[|s| - 1 - i])
  }

  /** The author's recipes newest first: `order_by('-pub_date')`. */
  function NewestFirst(rs: seq<Recipe>, author: UserId): (r: seq<Recipe>)
    requires IdsIncreasing(rs)
    ensures forall x :: x in r <==> x in rs && x.author == Some(author)
    ensures IdsDecreasing(r)
  {
    var a := AuthoredBy(rs, author);
    var r := Reverse(a);
    assert forall x :: x in r <==> x in a by {
      forall x | x in a ensures x in r {
        var i :| 0 <= i < |a| && a[i] == x;
        assert r[|a| - 1 - i] == x;
      }
    }
    r
  }

  function Min(a: int, b: int): int {
    if a <= b then a else b
  }

  /** get_recipes: the author's recipes newest first, cut to the first `n` when an integer
      limit is given; a non-integer limit raises BadRequest. */
  function RecipesOf(rs: seq<Recipe>, author: UserId, limit: Limit): (r: Result<seq<Recipe>, RecipesError>)
    requires IdsIncreasing(rs)
    ensures limit.NotInteger? ==> r == Err(BadRequest)
    ensures limit.IntLimit? && limit.n < 0 ==> r == Err(NegativeIndexing)
    ensures limit.NoLimit? || (limit.IntLimit? && limit.n >= 0) ==> r.Ok?
    ensures r.Ok? ==> forall x :: x in r.value ==> x in rs && x.author == Some(author)
    ensures r.Ok? ==> IdsDecreasing(r.value)
    ensures r.Ok? && limit.NoLimit? ==> |r.value| == |AuthoredBy(rs, author)|
    ensures r.Ok? && limit.IntLimit? ==> |r.value| == Min(limit.n, |AuthoredBy(rs, author)|)
    ensures r.Ok? ==> forall x, y :: x in rs && x.author == Some(author) && x !in r.value && y in r.value ==> x.id < y.id
  {
    var all := NewestFirst(rs, author);
    assert |all| == |AuthoredBy(rs, author)|;
    match limit
    case NotInteger => Err(BadRequest)
    case NoLimit => Ok(all)
    case IntLimit(n) =>
      if n < 0 then Err(NegativeIndexing)
      else
        var k := Min(n, |all|);
        NewestPrefix(all, k);
        Ok(all[..k])
  }

  /** In a list with decreasing ids, everything after the first `k` is older than everything
      in the first `k`. */
  lemma NewestPrefix(all: seq<Recipe>, k: nat)
    requires IdsDecreasing(all) && k <= |all|
    ensures forall x, y :: x in all && x !in all[..k] && y in all[..k] ==> x.id < y.id
  {
    forall x, y | x in all && x !in all[..k] && y in all[..k] ensures x.id < y.id {
      var i :| 0 <= i < |all| && all[i] == x;
      var j :| 0 <= j < k && all[..k][j] == y;
    }
  }
}
