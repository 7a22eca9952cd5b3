# Foodgram backend core in Dafny

Foodgram is a recipe-sharing service. Users publish recipes: a name, a text, a cooking time,
tags, and a list of ingredients with amounts. Users can favorite recipes, put them in a
shopping cart and subscribe to other authors. They can also download the cart as a shopping
list, in which the ingredient amounts of all cart recipes are summed per (name, unit).

This project models the business rules of the Django backend over explicit collections:

- The database is the class `Store.Store`, with one field per table.
  - Recipes are kept as a sequence in creation order, which stands for `pub_date`.
  - Ingredient rows are a sequence.
  - The (user, target) relation tables are sets of pairs.
- `Store.Store.Valid` gathers every bound and uniqueness constraint the models declare, and
  the no-self-subscription rule of the subscribe action.
  Every method that changes the store keeps it.
- The toggles (favorite, shopping cart, subscribe, and the generic add/delete mixin) are
  specified by pure step functions in `Toggle` and `Mixins`.
  - The in-place methods are proved equal to those functions.
  - Properties of request sequences are proved once, about the functions.
- The shopping-list query is specified by `ShoppingList.IsShoppingList`. The predicate says
  the list has one line per (name, unit) key, each total is the sum of that key's amounts,
  and totals are in descending order.
  - The group, sum and sort implementation is proved to meet it.
  - Any two lists that meet it contain the same lines.
- The rest is pure functions with their properties:
  - the character-class validators, with the regex engine's `$` modelled as Python runs it;
  - the serializer field checks;
  - the per-user flags;
  - the subscription recipe limit;
  - the permission predicates;
  - the filters;
  - the `export_ingredients` text.

Modules: `Wrappers`, `Http`, `Text`, `Validators`, `Schema`, `Serializers`, `Permissions`,
`Filters`, `Toggle`, `Mixins`, `ShoppingList`, `Export`, `Store`.

## Model

| member | source | states |
|---|---|---|
| Validators.ReMatchIff | backend/users/validators.py:12-17 | `re.match(r'^[C]*$', s)` succeeds iff every character is in C, or all but a final '\n' are |
| Validators.MeRejected | backend/users/validators.py:7-11 | "me" in any capitalisation is refused with the "me" message |
| Validators.UsernameAcceptedIff | backend/users/validators.py:6-13 | validate_username accepts iff the lowercased value is not "me" and the value is made of ASCII letters, '_' and '.', optionally with one trailing newline |
| Validators.UsernameTrailingNewline | backend/users/validators.py:12 | a valid username followed by one '\n' is still accepted |
| Validators.NameAcceptedIff | backend/users/validators.py:16-18 | validate_name accepts iff every character is a Latin letter, а-я, А-Я, ё, Ё or whitespace |
| Validators.EmptyAccepted | backend/users/validators.py:12-17 | the username, name and tag-name validators all accept the empty string |
| Validators.TagNameSameAsName | backend/recipes/validators.py:6-8 | the tag-name validator accepts exactly what users' validate_name accepts; only the message differs |
| Validators.TagNameRejectsDigitOrPunctuation | backend/recipes/validators.py:7-8 | a tag name with a digit or ASCII punctuation anywhere is refused |
| Schema.IngredientStr | backend/recipes/models.py:62-63 | `__str__` is the name, ", ", the unit and "." (length and prefix) |
| Schema.IngredientStrInjective | backend/recipes/models.py:40-63 | ingredients whose names pass validate_name print differently unless equal |
| Serializers.LengthCheck | backend/api/serializers.py:51-73 | first name, last name and password are refused with their message iff longer than 150 |
| Serializers.ValidateUsernameField | backend/api/serializers.py:42-49 | the username passes iff the character validator accepts it and it has at most 150 characters; the validator's refusal comes first |
| Serializers.ValidateNameField | backend/api/serializers.py:33-40 | the name passes iff it is letters/whitespace and at most 254 characters |
| Serializers.AcceptedSignupFitsUserModel | backend/users/models.py:14-30 | signup data that passes the serializer checks fits the User model's length bounds |
| Serializers.ValidateIngredients | backend/api/serializers.py:215-223 | an empty list is refused with its message; an accepted list is returned unchanged |
| Serializers.SetOfSize | backend/api/serializers.py:219-220 | `len(set(ids)) == len(ids)` iff the ids are pairwise distinct |
| Serializers.ValidateIngredientsIff | backend/api/serializers.py:215-223 | the list is accepted iff it is non-empty and has no repeated id; a repeat gives the "unique" message |
| Serializers.RowsFor | backend/api/serializers.py:236-241 | one ingredient row per submitted entry, in order, carrying its id and amount |
| Serializers.Strip | backend/api/serializers.py:202 | the `str.strip()` a CharField applies (trim_whitespace): no whitespace is left at either end |
| Serializers.StripSpec | backend/api/serializers.py:202 | strip keeps exactly the middle between the leading and the trailing whitespace runs, and gives "" iff the value is all whitespace |
| Serializers.StripTrimmed | backend/api/serializers.py:202 | a value with no whitespace at its ends is left unchanged |
| Serializers.StripIdempotent | backend/api/serializers.py:202 | stripping twice is stripping once |
| Serializers.BlankRefused | backend/recipes/models.py:96-99 | an empty or all-whitespace name or text is refused on its own field (allow_blank=False) |
| Serializers.ResubmitIsStable | backend/api/serializers.py:195-213 | resubmitting a stored recipe's name and text is accepted and stores the same row |
| Serializers.AcceptedDraftFitsSchema | backend/api/serializers.py:181-223 | a draft with no field errors gives a recipe with cooking time 1..600, a non-blank stripped name that passes validate_name and a non-blank stripped text of at most 500 characters, and rows with amount ≥ 1, known ingredients, unique per ingredient; tags exist |
| Serializers.AsWrittenAcceptsCookingTimeAbove600 | backend/api/serializers.py:200 | as written, the draft "Soup" / "Boil." with one ingredient and cooking_time 601 passes validation and breaks the model's bound; the corrected check refuses it on cooking_time alone |
| Serializers.PairFlag | backend/api/serializers.py:162-178 | is_favorited / is_in_shopping_cart / is_subscribed: false for anonymous users, otherwise membership of the (user, target) pair |
| Serializers.AuthoredBy | backend/api/serializers.py:295 | `instance.recipes`: exactly the author's recipes, creation order kept |
| Serializers.NewestFirst | backend/api/serializers.py:295-296 | the author's recipes, exactly, with strictly decreasing ids (newest first) |
| Serializers.RecipesOf | backend/api/serializers.py:284-302 | get_recipes: a non-integer limit raises BadRequest; a negative one is an error; otherwise the author's recipes newest first, min(n, count) of them (all without a limit), and every recipe left out is older than every one returned |
| Serializers.NewestPrefix | backend/api/serializers.py:298-299 | slicing a newest-first list keeps the newest recipes |
| Permissions.AdminOrReadOnly | backend/ingredients/permissions.py:7-12 | safe methods always allowed; others iff superuser |
| Permissions.AuthorOrReadOnly | backend/ingredients/permissions.py:18-22 | safe methods always allowed; others iff authenticated |
| Permissions.AuthorOrReadOnlyObject | backend/ingredients/permissions.py:24-29 | safe methods always allowed; others iff author or superuser; anonymous users only read |
| Permissions.AdminOrAuthorObject | backend/ingredients/permissions.py:35-40 | equal to AuthorOrReadOnly's object permission on every input |
| Permissions.IsOwnerOrReadOnly | backend/api/permissions.py:6-7 | safe methods always allowed; others iff the user is the author, with no staff override |
| Permissions.IsAdminOrReadOnly | backend/api/permissions.py:12-14 | safe methods always allowed; others iff staff |
| Permissions.OwnerCheckIsNarrower | backend/api/permissions.py:7 | the owner check allows no more than AuthorOrReadOnly, and refuses a superuser who is not the author |
| Filters.Keep | backend/api/filters.py:37 | `filter()` keeps each row satisfying the condition as often as it occurred and drops the rest |
| Filters.IngredientNameFilter | backend/api/filters.py:10 | keeps exactly the ingredients whose name starts with the query; an empty query keeps all |
| Filters.FilterIsFavorited | backend/api/filters.py:35-38 | no-op when the flag is false or the user is anonymous; otherwise exactly the user's favorited input recipes, with multiplicity |
| Filters.FilterIsInShoppingCart | backend/api/filters.py:40-43 | the same for the user's cart |
| Filters.FavoritedFilterMatchesFlag | backend/api/filters.py:35-38 | a recipe is listed by the favorited filter iff it is in the input and shows `is_favorited` |
| Filters.FilterByAuthor | backend/api/filters.py:22-24 | keeps exactly the recipes whose author equals the value; no value, no filtering |
| Filters.FilterByTags | backend/api/filters.py:25-29 | keeps the recipes carrying any chosen tag; no tag chosen, no filtering |
| Toggle.RecipeToggle | backend/api/views.py:207-248 | favorite/shopping_cart: 404 iff the recipe is unknown; 201 iff POST of an absent pair, which is added; 204 iff DELETE of a present pair, which is removed; 400 otherwise, with no change; other pairs untouched |
| Toggle.SubscribeToggle | backend/api/views.py:59-90 | subscribe: 404 iff the author is unknown; 201 iff POST to another author not yet followed, which is added; 204 iff DELETE of a present row, which is removed; 400 iff POST to oneself or to a followed author, or DELETE of an absent row, with no change |
| Toggle.DeleteRow | backend/api/utils.py:15-19 | serializer_delete_method: 404 if the recipe or the row is missing, otherwise exactly that row is deleted |
| Toggle.DeleteRowAgreesWithToggle | backend/api/utils.py:15-19 | it deletes what the favorite DELETE deletes, answering 404 where the action answers 400 |
| Toggle.AddTwice | backend/api/views.py:229-242 | a second POST answers 400 and exactly one new pair remains |
| Toggle.AddDeleteRoundTrip | backend/api/views.py:216-242 | POST then DELETE (or DELETE then POST) restores the table |
| Toggle.TogglesCommute | backend/api/views.py:216-233 | requests on different pairs commute |
| Toggle.SubscribeKeepsNoSelfFollow | backend/api/views.py:79-90 | subscribe never creates a self-subscription |
| Toggle.SubscribeTwice | backend/api/views.py:85-90 | subscribing twice answers 400 and leaves exactly one row |
| Toggle.SubscribeIsRecipeToggleElsewhere | backend/api/views.py:70-90 | apart from the self check, subscribe behaves as the favorite toggle |
| Mixins.AddDelStep | backend/api/mixins.py:53-65 | the intended step on the (user, object) row: 404 for a missing object, before any change; an add method without a row adds it (201); a delete method with a row deletes it (204); otherwise 400, unchanged |
| Mixins.AddDelStepAsWritten | backend/api/mixins.py:53-65 | the step as written for a model declaring `user` first: the filter looks for (user, obj) but 201 adds (obj, user); 500 iff an add finds no (user, obj) row but (obj, user) is already there; the other answers as AddDelStep |
| Mixins.AsWrittenAgreesOnlyOnDiagonal | backend/api/mixins.py:58 | the two readings agree when user and object ids are equal, and differ on every add of a new pair otherwise |
| Mixins.AsWrittenRepeatedPostFails | backend/api/mixins.py:55-59 | as written, a second POST for the same object does not see the first one's row and fails with 500; the intended step answers 400 |
| Mixins.MixinAgreesWithRecipeToggle | backend/api/mixins.py:57-65 | with {POST} and {DELETE}, the mixin answers as the favorite action |
| Mixins.OtherMethodsChangeNothing | backend/api/mixins.py:57-65 | a method in neither set never changes the rows, answering 400 |
| Mixins.AddDelRelation.AddDelObj | backend/api/mixins.py:34-65 | the in-place step: status and new rows equal AddDelStep on the old rows |
| Text.DecimalRoundTrip | backend/api/views.py:322 | the decimal text of a number reads back as that number |
| Text.JoinAppend | backend/api/views.py:321 | joining two non-empty runs puts exactly one separator between them |
| ShoppingList.AddItemKeys | backend/api/views.py:313-318 | grouping one more row adds its key and keeps keys unique |
| ShoppingList.AddItemTotal | backend/api/views.py:313-318 | grouping one more row adds its amount to its own key's total only |
| ShoppingList.AddItemSum | backend/api/views.py:318 | grouping one more row adds its amount to the grand total |
| ShoppingList.TotalOfMember | backend/api/views.py:313-318 | in a list with unique keys, a line's total is the total found for its key |
| ShoppingList.GroupCorrect | backend/api/views.py:313-318 | GROUP BY (name, unit) with Sum: unique keys, exactly the rows' keys, each total the sum of that key's amounts, grand total preserved |
| ShoppingList.InsertOrdered | backend/api/views.py:319 | inserting into a descending list keeps it descending |
| ShoppingList.InsertPermutes | backend/api/views.py:319 | insertion adds exactly the line (multiset), its total and its key |
| ShoppingList.InsertUnique | backend/api/views.py:319 | insertion of a new key keeps keys unique and the other totals |
| ShoppingList.SortPermutes | backend/api/views.py:319 | ORDER BY -total is a permutation: same lines, grand total and keys |
| ShoppingList.SortOrders | backend/api/views.py:319 | ORDER BY -total gives non-increasing totals |
| ShoppingList.SortKeepsTotals | backend/api/views.py:319 | sorting keeps keys unique and each key's total |
| ShoppingList.Aggregate | backend/api/views.py:313-319 | the queryset meets IsShoppingList (one line per key, totals are sums, descending order) and the totals sum to all amounts; no rows, no lines |
| ShoppingList.ShoppingListDeterminedUpToTies | backend/api/views.py:319 | any two lists meeting the specification hold the same lines; only the order of equal totals is open |
| ShoppingList.FormatLine | backend/api/views.py:322 | a line is `name (units) - ` followed by digits that read back as the total, with no leading zero unless the total is 0 |
| ShoppingList.FormatLines | backend/api/views.py:321-324 | one formatted line per group, in order |
| ShoppingList.RenderSplit | backend/api/views.py:321-324 | the text is the lines joined by single '\n'; an empty list gives "" |
| ShoppingList.DownloadText | backend/api/views.py:313-324 | the body is the rendering of a list meeting IsShoppingList; no rows give "" |
| ShoppingList.TwoRecipeExample | backend/api/views.py:313-319 | 200 g + 300 g flour and 2 + 1 eggs give flour 500, then eggs 3 |
| Export.FormatYear | backend/api/utils.py:35 | `%Y`: four digits reading back as the year |
| Export.FormatTwoDigits | backend/api/utils.py:26 | `%m` / `%d`: two digits reading back as the number |
| Export.FormatDate | backend/api/utils.py:26 | `%Y-%m-%d`: ten characters, dashes at 4 and 7, fields reading back as year, month, day |
| Export.FormatDateInjective | backend/api/utils.py:26 | distinct dates print differently |
| Export.EntryLine | backend/api/utils.py:29-31 | `- name (unit) - ` followed by digits reading back as the amount, with no leading zero unless the amount is 0 (exactly `str(amount)`) |
| Export.EntryLines | backend/api/utils.py:28-33 | one line per input row, in input order |
| Export.ExportIngredients | backend/api/utils.py:22-36 | the text is `User shopping list: {username}\n\n` + `Дата: {date}\n\n`, then the entry lines joined by '\n', then `\n\nFoodgram ({year})`; an empty list gives header and footer only |
| Store.TagPairs | backend/api/serializers.py:243 | `tags.set(tags)` on a new recipe: exactly the (recipe, t) pairs for the submitted tags |
| Store.PairsWithoutFirst | backend/recipes/models.py:127-131 | CASCADE on the first key: exactly the pairs whose first component differs |
| Store.PairsWithoutSecond | backend/recipes/models.py:193-197 | CASCADE on the second key: exactly the pairs whose second component differs |
| Store.KeepRowsUnique | backend/recipes/models.py:175-178 | filtering ingredient rows keeps (recipe, ingredient) unique |
| Store.RowsNotOfRecipe | backend/api/serializers.py:254 | `ingredientrecipes.all().delete()`: exactly the rows of other recipes remain, still unique |
| Store.RowsNotOfIngredient | backend/recipes/models.py:149-154 | deleting an ingredient: exactly the rows not using it remain, still unique |
| Store.RowsUniqueAppend | backend/recipes/models.py:175-178 | appending the rows of a recipe that had none keeps (recipe, ingredient) unique |
| Store.RecipesWithout | backend/recipes/models.py:66-116 | deleting a recipe: exactly the other recipes remain |
| Store.RecipesWithoutOrdered | backend/recipes/models.py:100-103 | deletion keeps creation (pub_date) order |
| Store.UpdatedRecipes | backend/api/serializers.py:250-251 | update replaces the name, text and cooking time of that recipe only, keeping id and author |
| Store.OrphanRecipes | backend/recipes/models.py:67-73 | SET_NULL: the deleted user's recipes stay with no author; nothing else changes |
| Store.CartItems | backend/api/views.py:301-307 | one item per ingredient row of a recipe in the user's cart, in row order (so shared ingredients count once per recipe), joined with its ingredient; none without a cart |
| Store.AppendRecipeOk | backend/recipes/models.py:66-108 | a new recipe with the next id keeps the recipe constraints and adds exactly its id |
| Store.CreateRowsOk | backend/recipes/models.py:119-178 | the rows and tags of a new recipe keep the row constraints |
| Store.UpdatedRecipesOk | backend/recipes/models.py:66-108 | an accepted update keeps the recipe constraints and the ids |
| Store.UpdateRowsOk | backend/recipes/models.py:119-178 | replacing a recipe's rows and tags keeps the row constraints |
| Store.DeleteRecipeOk | backend/recipes/models.py:66-108 | deleting a recipe keeps the recipe constraints and removes exactly its id |
| Store.OrphanRecipesOk | backend/recipes/models.py:67-73 | SET_NULL keeps the recipe constraints with the user removed, and keeps the ids |
| Store.DeleteRecipeRowsOk | backend/recipes/models.py:119-178 | the cascaded ingredient and tag rows keep the row constraints without the recipe |
| Store.DeleteRecipeRelationsOk | backend/recipes/models.py:185-197 | the cascaded favorites and cart keep referring to existing recipes |
| Store.DeleteUserRelationsOk | backend/users/models.py:45-57 | CASCADE on both sides of Subscribe and on the user's favorites and cart keeps every reference valid |
| Store.UsersOkWithout | backend/users/models.py:9-30 | removing a user keeps the user constraints |
| Store.CreateKeepsState | backend/api/serializers.py:225-244 | creating from a draft the corrected check (`DraftErrors`) accepts keeps every constraint |
| Store.UpdateKeepsState | backend/api/serializers.py:246-263 | updating from a draft the corrected check (`DraftErrors`) accepts keeps every constraint |
| Store.DeleteRecipeKeepsState | backend/recipes/models.py:119-197 | deleting a recipe with its cascade keeps every constraint |
| Store.Store.Favorite | backend/api/views.py:207-248 | keeps Valid; status and favorites equal RecipeToggle on the old favorites; nothing else changes |
| Store.Store.ShoppingCart | backend/api/views.py:255-292 | keeps Valid; status and cart equal RecipeToggle on the old cart; favorites untouched |
| Store.Store.Subscribe | backend/api/views.py:59-90 | keeps Valid; status and subscriptions equal SubscribeToggle on the old ones |
| Store.Store.DeleteRelationRow | backend/api/utils.py:15-19 | keeps Valid; the chosen table changes as DeleteRow says, the other is untouched |
| Store.Store.CreateRecipe | backend/api/serializers.py:225-244 | keeps Valid; errors of the corrected check `DraftErrors` (a blank name or text, or a cooking time above 600, among them) give Err(all of them) and no change; otherwise a fresh id, the recipe appended with the requesting user as author and its stripped name and text, one row per entry, tags equal to the submitted ones |
| Store.Store.InsertRows | backend/api/serializers.py:236-241 | the loop appends exactly RowsFor(id, entries) |
| Store.Store.FindRecipe | backend/api/views.py:211-214 | the recipe's position, or -1 iff no recipe has that id |
| Store.Store.UpdateRecipe | backend/api/serializers.py:246-263 | keeps Valid; unknown id gives NotFound, errors of the corrected check `DraftErrors` give Invalid(all of them), both without change; otherwise the fields are replaced, the recipe's rows are exactly the submitted list and its tags the submitted tags |
| Store.Store.WriteRecipe | backend/api/serializers.py:250-262 | the write itself: fields replaced, tags set, old rows deleted, new rows inserted |
| Store.Store.DeleteRecipe | backend/recipes/models.py:119-197 | keeps Valid; 404 iff unknown, without change; otherwise the recipe, its ingredient and tag rows, favorites and cart rows are gone and nothing else |
| Store.Store.DeleteUser | backend/recipes/models.py:67-73 | keeps Valid; the user's recipes lose their author; their favorites, cart rows and subscriptions on either side are deleted |
| Store.Store.DeleteIngredient | backend/recipes/models.py:149-154 | keeps Valid; the ingredient and exactly its rows are deleted |
| Store.Store.DeleteTag | backend/recipes/models.py:121-126 | keeps Valid; the tag and exactly its TagRecipe rows are deleted |
| Store.Store.DownloadShoppingCart | backend/api/views.py:299-324 | the body renders a list meeting IsShoppingList for the user's cart rows; an empty cart gives "" |
| Store.Store.SubscriptionRecipes | backend/api/serializers.py:284-302 | equal to RecipesOf on the stored recipes: BadRequest iff the limit is not an integer, the negative-slice error, otherwise that author's recipes newest first, min(n, count) of them |

## Left out

- HTTP plumbing: routers, response bodies, serializer selection, djoser, token auth and pagination. Each view returns a `Status` instead of a response.
- Image fields and Base64 decoding.
- The ingredient loading command, which is file and JSON I/O.
- `serializer_add_method`: it delegates to a serializer that is not part of this model.
- The schemas in `backend/api/models.py` and `backend/recipe/models.py`. They repeat the recipe tables with contradicting policies; the model follows `backend/recipes/models.py`, which the views import.
- `filter_is_favorited` and `filter_is_in_shopping_cart` (backend/api/filters.py:35-43) query `favorites__user` and `shopping_list__user`. The viewset's queryset is the `backend/recipes/models.py` Recipe (backend/api/views.py:154), whose reverse names are `favorite` and `shopping_cart` (backend/recipes/models.py:211,224); `shopping_list` exists in no schema. As written, both filters raise FieldError when the flag is set for a signed-in user. The model gives the intended behaviour: the favorites and cart tables.
- The session branch of `download_shopping_cart`: the action requires authentication, so it cannot run.
- The order among shopping-list lines with equal totals: it is left to the database. `ShoppingList.ShoppingListDeterminedUpToTies` states that only this order is open.
- Transactions and concurrent requests: each request is one atomic step.
- `Tuples.ADD_METHODS` / `DEL_METHODS` are not part of this model. They are parameters of `Mixins.AddDelRelation`.
- `MAX_LENGHT_2` is imported by `backend/recipes/models.py:6` but not defined in `backend/foodgram/settings.py`. The name, slug and unit columns that use it carry no length bound in the model.
- `UnicodeUsernameValidator` on the User model and the lowercasing of emails are not modelled. Usernames are bounded by the serializer's validators only.
- Django's `int()` parsing of `recipes_limit` is abstracted into `Serializers.Limit` (no limit, an integer, or not an integer).
- A negative limit: the queryset refuses negative slicing. It is modelled as the error `NegativeIndexing`, not as a raised exception.
- Validators.Lower: lowercases ASCII only. For the question "is it 'me'" this is exact, because no other character lowercases to 'm' or 'e'.
- The database's small-integer range for `amount` and `cooking_time` is not modelled. Integers are unbounded.
- Export.FormatYear: pads years below 1000 to four digits. Python's `%Y` for such years depends on the platform.
- `date.today()` is the parameter `today`.
- In `views.py:71,85,90,94` the subscribe action (line 94 filters the answer's queryset by `following__user`, which raises FieldError; with `ATOMIC_REQUESTS` at backend/foodgram/settings.py:70 the request's writes are rolled back), and in `backend/api/serializers.py:103` `get_is_subscribed`, reach Subscribe rows through `instance.following` / `author.following`, but `backend/users/models.py:54` declares the related name `subscribing`. As written both raise AttributeError. The model gives the intended behaviour: the rows of Subscribe whose author is `author`, in `Toggle.SubscribeToggle` and in the is_subscribed case of `Serializers.PairFlag`.
- Filters.IngredientNameFilter: is the case-sensitive `startswith` of PostgreSQL. `DEBUG` is fixed to True (backend/foodgram/settings.py:12), so the settings as shipped select SQLite (backend/foodgram/settings.py:65-69), whose LIKE ignores ASCII case; the configuration that actually runs is therefore not the one modelled.
- Serializers.ValidateNameField: models the body of `UserCreateSerializer.validate_name` (backend/api/serializers.py:33-40). The serializer declares no `name` field (backend/api/serializers.py:24-31), so the framework never calls this hook; signup does not depend on it.
- Serializers.Strip: whitespace is what `str.isspace()` accepts (the same set as the validators' `\s`). Of the CharField's own validators, the NUL check is modelled; surrogate code points cannot occur in a Dafny string.
- Mixins.AddDelStepAsWritten: does not model the foreign-key failure of the swapped row when the object id names no user or the user id no object; it models the unique-constraint failure that the repeated POST shows. The filter `q` is read as "object = obj".
- Store.Store.CreateRecipe / Store.Store.UpdateRecipe: apply the corrected `DraftErrors` (cooking_time at most 600; see Findings). As written, the source stores a draft with cooking_time above 600 and answers 201 (or 200 on update); the model refuses it with `CookingTimeField` and changes nothing.
- Mixins.AddDelRelation.AddDelObj: uses the intended (user, object) row of `Mixins.AddDelStep`, not the swapped row the code saves (see Findings).
- `update` sets attributes in a loop over the validated data. It is modelled as replacing the name, text and cooking time at once.
- A PATCH without `ingredients` or `tags` would raise KeyError in `update`. Only full drafts are modelled.
- The author-permission check in front of update and destroy is modelled separately, by `Permissions`, and not wired into the store methods.
- Tag colour format (`ColorField`) and slug character rules are not modelled; their uniqueness and the colour length are.

## Findings

| source | as written | input that shows it | evidently intended | confidence | as-written member | corrected member |
|---|---|---|---|---|---|---|
| backend/api/serializers.py:200 | `cooking_time = IntegerField(min_value=1)` replaces the model field and its `MaxValueValidator(600)` (backend/recipes/models.py:104-108); `objects.create` does not run model validators | the draft with name "Soup", text "Boil.", one ingredient {id 1, amount 1}, no tags and cooking_time 601 passes validation and is stored | cooking times outside 1..600 are refused | not executed | Serializers.AsWrittenAcceptsCookingTimeAbove600 | Serializers.AcceptedDraftFitsSchema |
| backend/api/mixins.py:58 | `m2m_model(None, obj.id, self.request.user.id)` fills the fields by position; the pair models declare `user` first (backend/recipes/models.py:185-197, backend/users/models.py:45-57), so the row saved is user = obj, object = requester, while the filter at line 55 looks for user = requester | on a Subscribe-shaped table (both ids name users), user 1 POSTs object 2 twice on an empty table: the first saves (2, 1) and answers 201; the second finds no (1, 2) row, saves (2, 1) again and the unique constraint fails (500) | the (user, object) row is saved and the second POST answers 400 | not executed | Mixins.AsWrittenRepeatedPostFails | Mixins.AddDelStep |
