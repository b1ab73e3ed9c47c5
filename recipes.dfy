/** The recipe handlers (controllers/recipeController.js) over the `recipes`
    and `reviews` tables: input normalisation and defaults, the per-user
    rating map and the listing that attaches each recipe's reviews.

    The tables are kept as their rows in insertion order; ids come from a
    serial counter. A database failure is `dbError`: the message every query
    of the request then throws with. */
module Recipes {
  import opened Js
  import opened Auth

  // ---------------------------------------------------------------------
  // Stored values

  /** A JSON value as the `ratings` column holds it. */
  datatype Json = JNull | JBool(b: bool) | JNum(n: int) | JStr(s: string) | JArray | JObject(fields: map<string, Json>)

  predicate JTruthy(j: Json) {
    match j
    case JNull => false
    case JBool(b) => b
    case JNum(n) => n != 0
    case JStr(s) => s != ""
    case JArray => true
    case JObject(_) => true
  }

  datatype Recipe = Recipe(
    title: JsValue,
    category: Option<string>,
    image: JsValue,
    createdBy: JsValue,
    description: JsValue,
    ingredients: JsValue,
    instructions: JsValue,
    favorite: JsValue,
    ratings: Json)

  datatype Row = Row(id: int, recipe: Recipe)

  datatype Review = Review(recipeId: int, uid: JsValue, reviewer: JsValue, text: JsValue, rating: JsValue)

  /** The fields of `req.body` that the recipe handlers read. */
  datatype RecipeBody = RecipeBody(
    title: JsValue,
    category: JsValue,
    image: JsValue,
    createdBy: JsValue,
    description: JsValue,
    ingredients: JsValue,
    instructions: JsValue,
    favorite: JsValue)

  datatype ReviewBody = ReviewBody(uid: JsValue, reviewer: JsValue, text: JsValue, rating: JsValue)

  /** A recipe as the read endpoints return it, with its `reviews` field. */
  datatype Listing = Listing(row: Row, reviews: seq<Review>)

  datatype Reply =
    | Error(status: int, error: string)
    | Listed(recipes: seq<Listing>)
    | Found(listing: Listing)
    | Saved(message: string, row: Option<Row>)
    | Deleted(message: string)
    | ReviewAdded(message: string, review: Review)
    | RatingSaved(message: string, ratings: Json)

  // ---------------------------------------------------------------------
  // Normalisation and defaults

  /** A query parameter: `undefined` is sent as SQL NULL. */
  function SqlValue(v: JsValue): (r: JsValue)
    ensures r != Undefined
    ensures v != Undefined ==> r == v
  {
    if v == Undefined then Null else v
  }

  /** `category ? category.toString().trim() : null`. */
  function NormalizeCategory(category: JsValue): (c: Option<string>)
    ensures c.None? <==> !Truthy(category)
    ensures c.Some? ==> c.value == Trim(ToString(category))
    ensures c.Some? ==> Clean(c.value)
  {
    if Truthy(category) then Some(Trim(ToString(category))) else None
  }

  /** No whitespace at either end. */
  predicate Clean(s: string) {
    s == [] || (!IsWhitespace(s[0]) && !IsWhitespace(s[|s| - 1]))
  }

  /** A stored category is normalised to itself; text made only of
      whitespace is stored as the empty string, not as null. */
  lemma NormalizeCategoryStable(c: string)
    requires c != [] && Clean(c)
    ensures NormalizeCategory(Str(c)) == Some(c)
  {
    TrimClean(c);
  }

  lemma BlankCategory(c: string)
    requires c != [] && forall i :: 0 <= i < |c| ==> IsWhitespace(c[i])
    ensures NormalizeCategory(Str(c)) == Some("")
  {
    assert TrimStart(c) == [];
  }

  /** `(req.user && req.user.id) ? req.user.id : (created_by || null)`. */
  function CreatedBy(user: Option<Claims>, createdBy: JsValue): (r: JsValue)
    ensures Truthy(UserIdOf(user)) ==> r == user.value.id
    ensures !Truthy(UserIdOf(user)) && Truthy(createdBy) ==> r == createdBy
    ensures !Truthy(UserIdOf(user)) && !Truthy(createdBy) ==> r == Null
    ensures Truthy(r) || r == Null
  {
    if Truthy(UserIdOf(user)) then user.value.id else Or(createdBy, Null)
  }

  /** `v || dflt`, the default of an optional field. */
  function Default(v: JsValue, dflt: JsValue): (r: JsValue)
    ensures Truthy(v) ==> r == v
    ensures !Truthy(v) ==> r == dflt
  {
    Or(v, dflt)
  }

  /** A row as `addRecipe` and `updateRecipe` store it: category, image,
      description, ingredients and instructions present or null, favorite a
      truthy value or false. */
  predicate WellFormed(r: Recipe) {
    && r.title != Undefined
    && (r.category.None? || Clean(r.category.value))
    && (Truthy(r.image) || r.image == Null)
    && (Truthy(r.createdBy) || r.createdBy == Null)
    && (Truthy(r.description) || r.description == Null)
    && (Truthy(r.ingredients) || r.ingredients == Null)
    && (Truthy(r.instructions) || r.instructions == Null)
    && (Truthy(r.favorite) || r.favorite == Bool(false))
  }

  /** The row `addRecipe` inserts; a new recipe has no ratings yet. */
  function NewRecipe(body: RecipeBody, user: Option<Claims>): (r: Recipe)
    ensures WellFormed(r)
    ensures r.category == NormalizeCategory(body.category)
    ensures r.title == SqlValue(body.title)
    ensures Truthy(body.image) ==> r.image == body.image
    ensures !Truthy(body.image) ==> r.image == Null
    ensures r.createdBy == CreatedBy(user, body.createdBy)
    ensures Truthy(body.description) ==> r.description == body.description
    ensures !Truthy(body.description) ==> r.description == Null
    ensures Truthy(body.ingredients) ==> r.ingredients == body.ingredients
    ensures !Truthy(body.ingredients) ==> r.ingredients == Null
    ensures Truthy(body.instructions) ==> r.instructions == body.instructions
    ensures !Truthy(body.instructions) ==> r.instructions == Null
    ensures Truthy(body.favorite) ==> r.favorite == body.favorite
    ensures !Truthy(body.favorite) ==> r.favorite == Bool(false)
    ensures r.ratings == JNull
  {
    Recipe(SqlValue(body.title), NormalizeCategory(body.category), Default(body.image, Null),
           CreatedBy(user, body.createdBy), Default(body.description, Null),
           Default(body.ingredients, Null), Default(body.instructions, Null),
           Default(body.favorite, Bool(false)), JNull)
  }

  /** The row `updateRecipe` writes: every editable field is replaced,
      the creator and the ratings are kept. */
  function UpdatedRecipe(old_: Recipe, body: RecipeBody): (r: Recipe)
    ensures WellFormed(old_) ==> WellFormed(r)
    ensures r.createdBy == old_.createdBy && r.ratings == old_.ratings
    ensures r.category == NormalizeCategory(body.category)
    ensures r == NewRecipe(body, None).(createdBy := old_.createdBy, ratings := old_.ratings)
  {
    Recipe(SqlValue(body.title), NormalizeCategory(body.category), Default(body.image, Null),
           old_.createdBy, Default(body.description, Null),
           Default(body.ingredients, Null), Default(body.instructions, Null),
           Default(body.favorite, Bool(false)), old_.ratings)
  }

  /** A review as `addReview` stores it: uid present or null, a reviewer,
      text or the empty string, and a rating or 0. */
  predicate ReviewWellFormed(r: Review) {
    && (Truthy(r.uid) || r.uid == Null)
    && Truthy(r.reviewer)
    && (Truthy(r.text) || r.text == Str(""))
    && (Truthy(r.rating) || r.rating == Num(0))
  }

  function NewReview(recipeId: int, body: ReviewBody): (r: Review)
    ensures ReviewWellFormed(r) && r.recipeId == recipeId
    ensures Truthy(body.uid) ==> r.uid == body.uid
    ensures !Truthy(body.uid) ==> r.uid == Null
    ensures Truthy(body.reviewer) ==> r.reviewer == body.reviewer
    ensures !Truthy(body.reviewer) ==> r.reviewer == Str("Anonymous")
    ensures Truthy(body.text) ==> r.text == body.text
    ensures !Truthy(body.text) ==> r.text == Str("")
    ensures Truthy(body.rating) ==> r.rating == body.rating
    ensures !Truthy(body.rating) ==> r.rating == Num(0)
  {
    Review(recipeId, Default(body.uid, Null), Default(body.reviewer, Str("Anonymous")),
           Default(body.text, Str("")), Default(body.rating, Num(0)))
  }

  // ---------------------------------------------------------------------
  // The rating map

  /** `Number(rating) || 0`. */
  function RatingValue(rating: JsValue): (v: int)
    ensures NumberTruthy(ToNumber(rating)) ==> v == ToNumber(rating).i
    ensures !NumberTruthy(ToNumber(rating)) ==> v == 0
  {
    match ToNumber(rating)
    case NaN => 0
    case Int(i) => i
  }

  /** `existing = cur.rows[0].ratings || {}`, then `{}` again for a falsy
      value or an array. */
  function RatingsBase(stored: Json): Json {
    var existing := if JTruthy(stored) then stored else JObject(map[]);
    if !JTruthy(existing) || existing.JArray? then JObject(map[]) else existing
  }

  const ProtoKey: string := "__proto__"

  /** Whether `m[key] = value` sets an own property of a plain object. An
      absent `__proto__` reaches the inherited accessor of
      `Object.prototype` (section B.2.2.1 of ECMA-262), whose setter ignores
      a number; an own `__proto__`, as `JSON.parse` creates one, is set like
      any other key. */
  predicate Assignable(m: map<string, Json>, key: string) {
    key != ProtoKey || key in m
  }

  /** `existing[key] = value` on the base of `stored`; on a truthy
      primitive the assignment has no effect (the module is not in strict
      mode). */
  function SaveEntry(stored: Json, key: string, value: int): Json {
    match RatingsBase(stored)
    case JObject(m) => if Assignable(m, key) then JObject(m[key := JNum(value)]) else JObject(m)
    case other => other
  }

  /** The ratings after `existing[uid] = Number(rating) || 0`: the property
      key is `String(uid)`. */
  function SaveRating(stored: Json, uid: JsValue, rating: JsValue): Json {
    SaveEntry(stored, ToString(uid), RatingValue(rating))
  }

  /** A null, falsy or array value is replaced by a map holding only the
      new entry, or by an empty map when the key is `__proto__`. */
  lemma RatingsReset(stored: Json, uid: JsValue, rating: JsValue)
    requires !JTruthy(stored) || stored.JArray?
    ensures ToString(uid) != ProtoKey ==>
      SaveRating(stored, uid, rating) == JObject(map[ToString(uid) := JNum(RatingValue(rating))])
    ensures ToString(uid) == ProtoKey ==> SaveRating(stored, uid, rating) == JObject(map[])
  {
    EntryReset(stored, ToString(uid), RatingValue(rating));
  }

  lemma EntryReset(stored: Json, key: string, value: int)
    requires !JTruthy(stored) || stored.JArray?
    ensures key != ProtoKey ==> SaveEntry(stored, key, value) == JObject(map[key := JNum(value)])
    ensures key == ProtoKey ==> SaveEntry(stored, key, value) == JObject(map[])
  {
    assert RatingsBase(stored) == JObject(map[]);
  }

  /** On a map, the entry of `uid` is set and every other entry is kept;
      a `__proto__` key the map does not own leaves it unchanged. */
  lemma RatingsUpdate(stored: Json, uid: JsValue, rating: JsValue)
    requires stored.JObject?
    ensures var saved := SaveRating(stored, uid, rating);
      && saved.JObject?
      && (Assignable(stored.fields, ToString(uid)) ==>
            && saved.fields.Keys == stored.fields.Keys + {ToString(uid)}
            && saved.fields[ToString(uid)] == JNum(RatingValue(rating))
            && forall k :: k in stored.fields && k != ToString(uid) ==> saved.fields[k] == stored.fields[k])
      && (!Assignable(stored.fields, ToString(uid)) ==> saved == stored)
  {
    EntryUpdate(stored, ToString(uid), RatingValue(rating));
  }

  lemma EntryUpdate(stored: Json, key: string, value: int)
    requires stored.JObject?
    ensures var saved := SaveEntry(stored, key, value);
      && saved.JObject?
      && (Assignable(stored.fields, key) ==>
            && saved.fields.Keys == stored.fields.Keys + {key}
            && saved.fields[key] == JNum(value)
            && forall k :: k in stored.fields && k != key ==> saved.fields[k] == stored.fields[k])
      && (!Assignable(stored.fields, key) ==> saved == stored)
  {
  }

  /** A rating from the uid `"__proto__"` leaves a map that does not own
      that key as it was. */
  lemma ProtoRatingIgnored(stored: Json, rating: JsValue)
    requires stored.JObject? && ProtoKey !in stored.fields
    ensures SaveRating(stored, Str(ProtoKey), rating) == stored
  {
    assert ToString(Str(ProtoKey)) == ProtoKey;
    EntryUpdate(stored, ProtoKey, RatingValue(rating));
  }

  /** A truthy number, string or boolean does not take the assignment. */
  lemma RatingsOnPrimitive(stored: Json, uid: JsValue, rating: JsValue)
    requires JTruthy(stored) && (stored.JBool? || stored.JNum? || stored.JStr?)
    ensures SaveRating(stored, uid, rating) == stored
  {
    EntryOnPrimitive(stored, ToString(uid), RatingValue(rating));
  }

  lemma EntryOnPrimitive(stored: Json, key: string, value: int)
    requires JTruthy(stored) && (stored.JBool? || stored.JNum? || stored.JStr?)
    ensures SaveEntry(stored, key, value) == stored
  {
  }

  /** Saving twice under one key keeps the second value. */
  lemma EntryLastWins(stored: Json, key: string, v1: int, v2: int)
    ensures SaveEntry(SaveEntry(stored, key, v1), key, v2) == SaveEntry(stored, key, v2)
  {
    var base := RatingsBase(stored);
    if base.JObject? {
      var once := SaveEntry(stored, key, v1);
      if Assignable(base.fields, key) {
        assert once == JObject(base.fields[key := JNum(v1)]);
        assert RatingsBase(once) == once && Assignable(once.fields, key);
        assert base.fields[key := JNum(v1)][key := JNum(v2)] == base.fields[key := JNum(v2)];
      } else {
        assert once == base && RatingsBase(once) == once;
      }
    }
  }

  /** Saving under two different keys gives the same ratings in either
      order. */
  lemma EntryCommute(stored: Json, k1: string, v1: int, k2: string, v2: int)
    requires k1 != k2
    ensures SaveEntry(SaveEntry(stored, k1, v1), k2, v2) == SaveEntry(SaveEntry(stored, k2, v2), k1, v1)
  {
    var base := RatingsBase(stored);
    if base.JObject? {
      var m := base.fields;
      var first := SaveEntry(stored, k1, v1);
      var second := SaveEntry(stored, k2, v2);
      var m1 := if Assignable(m, k1) then m[k1 := JNum(v1)] else m;
      var m2 := if Assignable(m, k2) then m[k2 := JNum(v2)] else m;
      assert first == JObject(m1) && RatingsBase(first) == first;
      assert second == JObject(m2) && RatingsBase(second) == second;
      assert Assignable(m1, k2) == Assignable(m, k2) && Assignable(m2, k1) == Assignable(m, k1);
      if Assignable(m, k1) && Assignable(m, k2) {
        assert m[k1 := JNum(v1)][k2 := JNum(v2)] == m[k2 := JNum(v2)][k1 := JNum(v1)];
      }
    }
  }

  /** The latest rating of a user wins, and saving is idempotent. */
  lemma RatingsLastWins(stored: Json, uid: JsValue, r1: JsValue, r2: JsValue)
    ensures SaveRating(SaveRating(stored, uid, r1), uid, r2) == SaveRating(stored, uid, r2)
    ensures SaveRating(SaveRating(stored, uid, r1), uid, r1) == SaveRating(stored, uid, r1)
  {
    var k := ToString(uid);
    EntryLastWins(stored, k, RatingValue(r1), RatingValue(r2));
    EntryLastWins(stored, k, RatingValue(r1), RatingValue(r1));
  }

  /** Ratings of different users do not interfere. */
  lemma RatingsCommute(stored: Json, u1: JsValue, r1: JsValue, u2: JsValue, r2: JsValue)
    requires ToString(u1) != ToString(u2)
    ensures SaveRating(SaveRating(stored, u1, r1), u2, r2) == SaveRating(SaveRating(stored, u2, r2), u1, r1)
  {
    EntryCommute(stored, ToString(u1), RatingValue(r1), ToString(u2), RatingValue(r2));
  }

  // ---------------------------------------------------------------------
  // Queries over the tables

  /** `WHERE id=$1`: the position of the row with that id. */
  function IndexOf(rows: seq<Row>, id: int): (k: Option<nat>)
    ensures k.Some? ==> k.value < |rows| && rows[k.value].id == id
    ensures k.None? ==> forall i :: 0 <= i < |rows| ==> rows[i].id != id
  {
    if rows == [] then None
    else if rows[0].id == id then Some(0)
    else
      match IndexOf(rows[1..], id)
      case None => None
      case Some(k) => Some(k + 1)
  }

  /** `DELETE FROM recipes WHERE id=$1`. */
  function DeleteRow(rows: seq<Row>, id: int): seq<Row> {
    match IndexOf(rows, id)
    case None => rows
    case Some(k) => rows[..k] + rows[k + 1..]
  }

  predicate Increasing(rows: seq<Row>) {
    forall i, j :: 0 <= i < j < |rows| ==> rows[i].id < rows[j].id
  }

  lemma AppendIncreasing(rows: seq<Row>, row: Row)
    requires Increasing(rows) && forall i :: 0 <= i < |rows| ==> rows[i].id < row.id
    ensures Increasing(rows + [row])
  {
  }

  lemma ReplaceIncreasing(rows: seq<Row>, k: nat, row: Row)
    requires Increasing(rows) && k < |rows| && row.id == rows[k].id
    ensures Increasing(rows[k := row])
  {
  }

  /** With unique ids, the delete removes exactly the row with that id and
      keeps the order of the others. */
  lemma DeleteRowMembers(rows: seq<Row>, id: int)
    requires Increasing(rows)
    ensures Increasing(DeleteRow(rows, id))
    ensures forall r :: r in DeleteRow(rows, id) <==> r in rows && r.id != id
  {
    match IndexOf(rows, id)
    case None =>
    case Some(k) =>
      RemoveAt(rows, k);
  }

  lemma RemoveAt(rows: seq<Row>, k: nat)
    requires Increasing(rows) && k < |rows|
    ensures Increasing(rows[..k] + rows[k + 1..])
    ensures forall r :: r in rows[..k] + rows[k + 1..] <==> r in rows && r.id != rows[k].id
  {
    var d := rows[..k] + rows[k + 1..];
    assert forall i :: 0 <= i < |d| ==> d[i] == if i < k then rows[i] else rows[i + 1];
    forall r | r in rows
      ensures r in d <==> r.id != rows[k].id
    {
      var i :| 0 <= i < |rows| && rows[i] == r;
      if i < k {
        assert d[i] == r;
      } else if i > k {
        assert d[i - 1] == r;
      }
    }
  }

  /** `... WHERE recipe_id=$1 ORDER BY created_at DESC`: newest first. */
  function ReviewsOf(reviews: seq<Review>, id: int): (r: seq<Review>)
    ensures forall v :: v in r <==> v in reviews && v.recipeId == id
  {
    if reviews == [] then []
    else
      var last := reviews[|reviews| - 1];
      assert reviews == reviews[..|reviews| - 1] + [last];
      (if last.recipeId == id then [last] else []) + ReviewsOf(reviews[..|reviews| - 1], id)
  }

  /** The newest review of a recipe is listed first. */
  lemma NewestReviewFirst(reviews: seq<Review>, v: Review)
    ensures ReviewsOf(reviews + [v], v.recipeId) == [v] + ReviewsOf(reviews, v.recipeId)
  {
    assert (reviews + [v])[..|reviews|] == reviews;
  }

  /** The positions among the first `n` reviews that belong to recipe `id`,
      newest first. */
  function ReviewPositions(reviews: seq<Review>, id: int, n: nat): (p: seq<nat>)
    requires n <= |reviews|
    ensures forall i :: 0 <= i < |p| ==> p[i] < n && reviews[p[i]].recipeId == id
    ensures forall i, j :: 0 <= i < j < |p| ==> p[i] > p[j]
    ensures forall k :: 0 <= k < n && reviews[k].recipeId == id ==> k in p
  {
    if n == 0 then []
    else
      var rest := ReviewPositions(reviews, id, n - 1);
      if reviews[n - 1].recipeId == id then [n - 1] + rest else rest
  }

  lemma {:induction false} PositionsPrefix(a: seq<Review>, b: seq<Review>, id: int, n: nat)
    requires n <= |a| && n <= |b| && a[..n] == b[..n]
    ensures ReviewPositions(a, id, n) == ReviewPositions(b, id, n)
  {
    if n > 0 {
      assert a[n - 1] == a[..n][n - 1] == b[..n][n - 1] == b[n - 1];
      assert a[..n - 1] == a[..n][..n - 1] && b[..n - 1] == b[..n][..n - 1];
      PositionsPrefix(a, b, id, n - 1);
    }
  }

  /** The reviews at positions `p`, in the order of `p`. */
  function ReviewsAt(reviews: seq<Review>, p: seq<nat>): (r: seq<Review>)
    requires forall i :: 0 <= i < |p| ==> p[i] < |reviews|
    ensures |r| == |p| && forall i :: 0 <= i < |p| ==> r[i] == reviews[p[i]]
  {
    seq(|p|, i requires 0 <= i < |p| => reviews[p[i]])
  }

  lemma ReviewsAtCons(reviews: seq<Review>, k: nat, q: seq<nat>)
    requires k < |reviews| && forall i :: 0 <= i < |q| ==> q[i] < |reviews|
    ensures ReviewsAt(reviews, [k] + q) == [reviews[k]] + ReviewsAt(reviews, q)
  {
    var a, b := ReviewsAt(reviews, [k] + q), [reviews[k]] + ReviewsAt(reviews, q);
    assert forall i :: 1 <= i < |a| ==> a[i] == reviews[q[i - 1]] == b[i];
  }

  lemma ReviewsAtPrefix(reviews: seq<Review>, m: nat, q: seq<nat>)
    requires m <= |reviews| && forall i :: 0 <= i < |q| ==> q[i] < m
    ensures ReviewsAt(reviews[..m], q) == ReviewsAt(reviews, q)
  {
  }

  /** A recipe's reviews are listed once per stored review of it, newest
      first: they are the reviews at `ReviewPositions`, in that order. */
  lemma {:induction false} ReviewsOfOrdered(reviews: seq<Review>, id: int)
    ensures ReviewsOf(reviews, id) == ReviewsAt(reviews, ReviewPositions(reviews, id, |reviews|))
  {
    if reviews != [] {
      var n := |reviews|;
      var prefix := reviews[..n - 1];
      var last := reviews[n - 1];
      assert ReviewsOf(reviews, id) == (if last.recipeId == id then [last] else []) + ReviewsOf(prefix, id);
      ReviewsOfOrdered(prefix, id);
      assert prefix[..n - 1] == prefix == reviews[..n - 1];
      PositionsPrefix(reviews, prefix, id, n - 1);
      var q := ReviewPositions(reviews, id, n - 1);
      assert ReviewPositions(reviews, id, n) == if last.recipeId == id then [n - 1] + q else q;
      ReviewsAtPrefix(reviews, n - 1, q);
      if last.recipeId == id {
        ReviewsAtCons(reviews, n - 1, q);
      }
    }
  }

  /** ASCII lower-casing of one character. */
  function LowerChar(c: char): (d: char)
    ensures 'A' <= c <= 'Z' ==> d as int == c as int + 32
    ensures !('A' <= c <= 'Z') ==> d == c
  {
    if 'A' <= c <= 'Z' then (c as int + 32) as char else c
  }

  /** ASCII `lower()`. */
  function Lower(s: string): (r: string)
    ensures |r| == |s| && forall i :: 0 <= i < |s| ==> r[i] == LowerChar(s[i])
    ensures forall i :: 0 <= i < |r| ==> !('A' <= r[i] <= 'Z')
    ensures forall i :: 0 <= i < |s| && !('A' <= s[i] <= 'Z') ==> r[i] == s[i]
    ensures forall i :: 0 <= i < |s| && 'A' <= s[i] <= 'Z' ==> r[i] as int == s[i] as int + 32
  {
    if s == [] then []
    else
      var rest := Lower(s[1..]);
      assert forall i :: 1 <= i < |s| ==> ([LowerChar(s[0])] + rest)[i] == rest[i - 1] && s[i] == s[1..][i - 1];
      [LowerChar(s[0])] + rest
  }


  /** SQL `trim()`: spaces at both ends. */
  function SqlTrim(s: string): (r: string)
    ensures |r| <= |s|
    ensures r == [] || (r[0] != ' ' && r[|r| - 1] != ' ')
  {
    if s != [] && s[0] == ' ' then SqlTrim(s[1..])
    else if s != [] && s[|s| - 1] == ' ' then SqlTrim(s[..|s| - 1])
    else s
  }

  /** Everything in `s` before `a` and from `b` on is a space. */
  predicate SpacePadded(s: string, a: int, b: int) {
    && 0 <= a <= b <= |s|
    && (forall i :: 0 <= i < a ==> s[i] == ' ')
    && (forall i :: b <= i < |s| ==> s[i] == ' ')
  }

  /** What `trim()` leaves is a slice of the text with only spaces around it. */
  lemma {:induction false} SqlTrimSlice(s: string)
    ensures exists a, b :: SpacePadded(s, a, b) && SqlTrim(s) == s[a..b]
  {
    if s != [] && s[0] == ' ' {
      SqlTrimSlice(s[1..]);
      var a, b :| SpacePadded(s[1..], a, b) && SqlTrim(s[1..]) == s[1..][a..b];
      assert s[1..][a..b] == s[a + 1..b + 1];
      assert forall i :: 1 <= i < |s| ==> s[i] == s[1..][i - 1];
      assert SpacePadded(s, a + 1, b + 1);
    } else if s != [] && s[|s| - 1] == ' ' {
      var p := s[..|s| - 1];
      SqlTrimSlice(p);
      var a, b :| SpacePadded(p, a, b) && SqlTrim(p) == p[a..b];
      assert p[a..b] == s[a..b];
      assert forall i :: 0 <= i < |p| ==> s[i] == p[i];
      assert SpacePadded(s, a, b);
    } else {
      assert SpacePadded(s, 0, |s|) && s == s[0..|s|];
    }
  }

  /** `lower(trim(category)) = lower(trim($1))`; a null category never matches. */
  predicate CategoryMatches(stored: Option<string>, wanted: string) {
    stored.Some? && Lower(SqlTrim(stored.value)) == Lower(SqlTrim(wanted))
  }

  /** `SELECT * FROM recipes`, filtered when a category is given. */
  function Select(rows: seq<Row>, category: Option<string>): (r: seq<Row>)
    ensures category.None? || category.value == "" ==> r == rows
    ensures forall x :: x in r <==> x in rows && (category.None? || category.value == "" ||
                                                  CategoryMatches(x.recipe.category, category.value))
  {
    if category.None? || category.value == "" then rows
    else if rows == [] then []
    else
      assert rows == [rows[0]] + rows[1..];
      (if CategoryMatches(rows[0].recipe.category, category.value) then [rows[0]] else []) + Select(rows[1..], category)
  }

  lemma TailIncreasing(rows: seq<Row>)
    requires Increasing(rows) && rows != []
    ensures Increasing(rows[1..])
    ensures forall y :: y in rows[1..] ==> rows[0].id < y.id
  {
    assert forall i :: 0 <= i < |rows| - 1 ==> rows[1..][i] == rows[i + 1];
  }

  lemma ConsIncreasing(x: Row, rest: seq<Row>)
    requires Increasing(rest) && forall y :: y in rest ==> x.id < y.id
    ensures Increasing([x] + rest)
  {
    var r := [x] + rest;
    forall i, j | 0 <= i < j < |r|
      ensures r[i].id < r[j].id
    {
      assert r[j] == rest[j - 1];
      if i > 0 {
        assert r[i] == rest[i - 1];
      }
    }
  }

  /** The filter keeps the order of the table: ascending ids stay ascending. */
  lemma {:induction false} SelectKeepsOrder(rows: seq<Row>, category: Option<string>)
    requires Increasing(rows)
    ensures Increasing(Select(rows, category))
  {
    if category.Some? && category.value != "" && rows != [] {
      var rest := Select(rows[1..], category);
      TailIncreasing(rows);
      SelectKeepsOrder(rows[1..], category);
      if CategoryMatches(rows[0].recipe.category, category.value) {
        ConsIncreasing(rows[0], rest);
      }
    }
  }

  /** Two category texts that agree once trimmed and lowered select the same
      rows. */
  lemma {:induction false} SelectByKey(rows: seq<Row>, a: string, b: string)
    requires a != "" && b != "" && Lower(SqlTrim(a)) == Lower(SqlTrim(b))
    ensures Select(rows, Some(a)) == Select(rows, Some(b))
  {
    if rows != [] {
      SelectByKey(rows[1..], a, b);
    }
  }

  /** `?category=Dessert` and `?category=  dessert ` list the same recipes. */
  lemma SelectDessert(rows: seq<Row>)
    ensures Select(rows, Some("Dessert")) == Select(rows, Some("  dessert "))
  {
    DessertKey();
    PaddedDessertKey();
    SelectByKey(rows, "Dessert", "  dessert ");
  }

  // The keys of the two texts, each worked out on its own.
  lemma DessertKey()
    ensures Lower(SqlTrim("Dessert")) == "dessert"
  {
  }

  lemma PaddedDessertKey()
    ensures Lower(SqlTrim("  dessert ")) == "dessert"
  {
    PaddedDessertTrimmed();
    LowerDessert();
  }

  lemma PaddedDessertTrimmed()
    ensures SqlTrim("  dessert ") == "dessert"
  {
  }

  lemma LowerDessert()
    ensures Lower("dessert") == "dessert"
  {
  }

  /** A recipe's `reviews` in the listing: its reviews, or none when the
      fetch failed. */
  function ReviewsFor(reviews: seq<Review>, id: int, failing: set<int>): seq<Review> {
    if id in failing then [] else ReviewsOf(reviews, id)
  }

  // ---------------------------------------------------------------------
  // The handlers

  /** The `recipes` and `reviews` tables and the serial behind recipe ids. */
  class RecipeStore {
    var rows: seq<Row>
    var reviews: seq<Review>
    var nextId: int

    ghost predicate Valid()
      reads this
    {
      && Increasing(rows)
      && (forall i :: 0 <= i < |rows| ==> rows[i].id < nextId && WellFormed(rows[i].recipe))
      && (forall k :: 0 <= k < |reviews| ==> ReviewWellFormed(reviews[k]))
    }

    constructor ()
      ensures rows == [] && reviews == [] && nextId == 1 && Valid()
    {
      rows := [];
      reviews := [];
      nextId := 1;
    }

    /** The loop of `getRecipes`: each recipe gets its reviews, or `[]` when
        fetching them fails. */
    method AttachReviews(recipes: array<Listing>, failing: set<int>)
      modifies recipes
      ensures forall i :: 0 <= i < recipes.Length ==>
        recipes[i] == old(recipes[i]).(reviews := ReviewsFor(reviews, old(recipes[i]).row.id, failing))
    {
      for i := 0 to recipes.Length
        invariant forall k :: 0 <= k < i ==>
          recipes[k] == old(recipes[k]).(reviews := ReviewsFor(reviews, old(recipes[k]).row.id, failing))
        invariant forall k :: i <= k < recipes.Length ==> recipes[k] == old(recipes[k])
      {
        var id := recipes[i].row.id;
        if id in failing {
          recipes[i] := recipes[i].(reviews := []);
        } else {
          recipes[i] := recipes[i].(reviews := ReviewsOf(reviews, id));
        }
      }
    }

    /** `GET /api/recipes?category=...`: every selected recipe with its
        reviews; a failed review fetch does not fail the listing. */
    method GetRecipes(category: Option<string>, failing: set<int>, dbError: Option<string>) returns (r: Reply)
      ensures dbError.Some? ==> r == Error(500, dbError.value)
      ensures dbError.None? ==> r.Listed? && |r.recipes| == |Select(rows, category)|
      ensures dbError.None? ==> forall i :: 0 <= i < |r.recipes| ==>
        r.recipes[i] == Listing(Select(rows, category)[i], ReviewsFor(reviews, Select(rows, category)[i].id, failing))
    {
      if dbError.Some? {
        return Error(500, dbError.value);
      }
      var selected := Select(rows, category);
      var recipes := new Listing[|selected|](i requires 0 <= i < |selected| => Listing(selected[i], []));
      AttachReviews(recipes, failing);
      r := Listed(recipes[..]);
    }

    /** `GET /api/recipes/:id`. */
    function GetRecipeById(id: int, dbError: Option<string>): (r: Reply)
      reads this
      ensures dbError.Some? ==> r == Error(500, dbError.value)
      ensures dbError.None? && (forall i :: 0 <= i < |rows| ==> rows[i].id != id) ==> r == Error(404, "Recipe not found")
      ensures dbError.None? && IndexOf(rows, id).Some? ==>
        r == Found(Listing(rows[IndexOf(rows, id).value], ReviewsOf(reviews, id)))
      ensures r.Found? ==> r.listing.row in rows && r.listing.row.id == id
      ensures r.Found? ==> forall v :: v in r.listing.reviews <==> v in reviews && v.recipeId == id
    {
      if dbError.Some? then Error(500, dbError.value)
      else
        match IndexOf(rows, id)
        case None => Error(404, "Recipe not found")
        case Some(k) => Found(Listing(rows[k], ReviewsOf(reviews, id)))
    }

    /** `POST /api/recipes`. */
    method AddRecipe(body: RecipeBody, user: Option<Claims>, dbError: Option<string>) returns (r: Reply)
      requires Valid()
      modifies this
      ensures Valid() && reviews == old(reviews)
      ensures dbError.Some? ==> r == Error(500, dbError.value) && rows == old(rows) && nextId == old(nextId)
      ensures dbError.None? ==>
        && rows == old(rows) + [Row(old(nextId), NewRecipe(body, user))]
        && nextId == old(nextId) + 1
        && r == Saved("Recipe added!", Some(Row(old(nextId), NewRecipe(body, user))))
    {
      if dbError.Some? {
        return Error(500, dbError.value);
      }
      var row := Row(nextId, NewRecipe(body, user));
      AppendIncreasing(rows, row);
      rows := rows + [row];
      nextId := nextId + 1;
      r := Saved("Recipe added!", Some(row));
    }

    /** `PUT /api/recipes/:id`: the answer says "updated" even when no row
        has that id. */
    method UpdateRecipe(id: int, body: RecipeBody, dbError: Option<string>) returns (r: Reply)
      requires Valid()
      modifies this`rows
      ensures Valid()
      ensures dbError.Some? ==> r == Error(500, dbError.value) && rows == old(rows)
      ensures dbError.None? && IndexOf(old(rows), id).None? ==> r == Saved("Recipe updated!", None) && rows == old(rows)
      ensures dbError.None? && IndexOf(old(rows), id).Some? ==>
        var k := IndexOf(old(rows), id).value;
        var row := Row(id, UpdatedRecipe(old(rows)[k].recipe, body));
        && rows == old(rows)[k := row]
        && r == Saved("Recipe updated!", Some(row))
    {
      if dbError.Some? {
        return Error(500, dbError.value);
      }
      var k := IndexOf(rows, id);
      if k.None? {
        return Saved("Recipe updated!", None);
      }
      var row := Row(id, UpdatedRecipe(rows[k.value].recipe, body));
      ReplaceIncreasing(rows, k.value, row);
      rows := rows[k.value := row];
      r := Saved("Recipe updated!", Some(row));
    }

    /** `DELETE /api/recipes/:id`: the same answer whether or not the row
        existed. */
    method DeleteRecipe(id: int, dbError: Option<string>) returns (r: Reply)
      requires Valid()
      modifies this`rows
      ensures Valid()
      ensures dbError.Some? ==> r == Error(500, dbError.value) && rows == old(rows)
      ensures dbError.None? ==> r == Deleted("Recipe deleted!") && rows == DeleteRow(old(rows), id)
    {
      if dbError.Some? {
        return Error(500, dbError.value);
      }
      DeleteRowMembers(rows, id);
      rows := DeleteRow(rows, id);
      r := Deleted("Recipe deleted!");
    }

    /** `POST /api/recipes/:id/reviews`. */
    method AddReview(id: int, body: ReviewBody, dbError: Option<string>) returns (r: Reply)
      requires Valid()
      modifies this`reviews
      ensures Valid()
      ensures dbError.Some? ==> r == Error(500, dbError.value) && reviews == old(reviews)
      ensures dbError.None? && IndexOf(rows, id).None? ==> r == Error(404, "Recipe not found") && reviews == old(reviews)
      ensures dbError.None? && IndexOf(rows, id).Some? ==>
        && reviews == old(reviews) + [NewReview(id, body)]
        && r == ReviewAdded("Review added", NewReview(id, body))
    {
      if dbError.Some? {
        return Error(500, dbError.value);
      }
      if IndexOf(rows, id).None? {
        return Error(404, "Recipe not found");
      }
      var review := NewReview(id, body);
      reviews := reviews + [review];
      r := ReviewAdded("Review added", review);
    }

    /** `POST /api/recipes/:id/rating`: the uid check comes before any
        query; the stored map is the one returned. */
    method AddRating(id: int, uid: JsValue, rating: JsValue, dbError: Option<string>) returns (r: Reply)
      requires Valid()
      modifies this`rows
      ensures Valid()
      ensures !Truthy(uid) ==> r == Error(400, "uid required") && rows == old(rows)
      ensures Truthy(uid) && dbError.Some? ==> r == Error(500, dbError.value) && rows == old(rows)
      ensures Truthy(uid) && dbError.None? && IndexOf(old(rows), id).None? ==>
        r == Error(404, "Recipe not found") && rows == old(rows)
      ensures Truthy(uid) && dbError.None? && IndexOf(old(rows), id).Some? ==>
        var k := IndexOf(old(rows), id).value;
        var saved := SaveRating(old(rows)[k].recipe.ratings, uid, rating);
        && rows == old(rows)[k := Row(id, old(rows)[k].recipe.(ratings := saved))]
        && r == RatingSaved("Rating saved", saved)
    {
      if !Truthy(uid) {
        return Error(400, "uid required");
      }
      if dbError.Some? {
        return Error(500, dbError.value);
      }
      var k := IndexOf(rows, id);
      if k.None? {
        return Error(404, "Recipe not found");
      }
      var current := rows[k.value].recipe;
      var existing := current.ratings;
      if !JTruthy(existing) {
        existing := JObject(map[]);
      }
      if !JTruthy(existing) || existing.JArray? {
        existing := JObject(map[]);
      }
      assert existing == RatingsBase(current.ratings);
      var key, value := ToString(uid), RatingValue(rating);
      if existing.JObject? && Assignable(existing.fields, key) {
        existing := JObject(existing.fields[key := JNum(value)]);
      }
      assert existing == SaveEntry(current.ratings, key, value);
      var row := Row(id, current.(ratings := existing));
      assert WellFormed(row.recipe);
      ReplaceIncreasing(rows, k.value, row);
      rows := rows[k.value := row];
      r := RatingSaved("Rating saved", existing);
    }
  }
}
