/** The favorites handlers (controllers/favoritesController.js) over the
    `favorites` table, a relation of (user, recipe) pairs.

    The table is kept as its rows in insertion order; since `created_at`
    defaults to the insertion time, later rows are newer. A database failure
    is the flag `dbFails`: every query of the request then throws. */
module Favorites {
  import opened Js
  import opened Auth

  datatype Favorite = Favorite(user: JsValue, recipe: int)

  /** A handler's answer: a JSON body, or an error status with its message. */
  datatype Reply<T> = Ok(body: T) | Error(status: int, error: string)

  datatype Toggled = Removed | Added

  /** `Number(req.params.recipeId)`. */
  function RecipeIdOf(param: string): Number {
    ToNumber(Str(param))
  }

  /** A decimal id other than zero is accepted as itself; "0" and the empty
      string are rejected, and so is any non-numeric text. */
  lemma RecipeIdCases(digits: string)
    requires digits != [] && AllDigits(digits)
    ensures RecipeIdOf(digits) == Int(DigitsValue(digits))
    ensures NumberTruthy(RecipeIdOf(digits)) <==> DigitsValue(digits) != 0
    ensures !NumberTruthy(RecipeIdOf(""))
    ensures RecipeIdOf("x" + digits) == NaN
  {
    assert Trim("") == "";
    var s := "x" + digits;
    assert s[|s| - 1] == digits[|digits| - 1];
    NonNumericIsNaN(s);
  }

  /** Text that starts with neither a digit nor a sign is not a number. */
  lemma NonNumericIsNaN(s: string)
    requires s != [] && !IsDigit(s[0]) && s[0] != '+' && s[0] != '-'
    requires !IsWhitespace(s[0]) && !IsWhitespace(s[|s| - 1])
    ensures StringToNumber(s) == NaN
  {
    TrimClean(s);
    assert !AllDigits(s) by {
      assert !IsDigit(s[0]);
    }
  }

  // ---------------------------------------------------------------------
  // The relation and its operations

  predicate Distinct(rows: seq<Favorite>) {
    rows == [] || (rows[0] !in rows[1..] && Distinct(rows[1..]))
  }

  /** `DELETE FROM favorites WHERE user_id = $1 AND recipe_id = $2`. */
  function Without(rows: seq<Favorite>, f: Favorite): (r: seq<Favorite>)
    ensures |r| <= |rows|
  {
    if rows == [] then []
    else if rows[0] == f then Without(rows[1..], f)
    else [rows[0]] + Without(rows[1..], f)
  }

  /** The table after a toggle of `f`: the pair deleted when present,
      otherwise inserted as the newest row. */
  function Toggle(rows: seq<Favorite>, f: Favorite): seq<Favorite> {
    if f in rows then Without(rows, f) else rows + [f]
  }

  lemma {:induction false} WithoutMembers(rows: seq<Favorite>, f: Favorite)
    ensures forall g :: g in Without(rows, f) <==> g in rows && g != f
  {
    if rows != [] {
      WithoutMembers(rows[1..], f);
      assert rows == [rows[0]] + rows[1..];
    }
  }

  lemma {:induction false} WithoutAbsent(rows: seq<Favorite>, f: Favorite)
    requires f !in rows
    ensures Without(rows, f) == rows
  {
    if rows != [] {
      assert rows == [rows[0]] + rows[1..];
      WithoutAbsent(rows[1..], f);
      assert rows == [rows[0]] + rows[1..];
    }
  }

  lemma {:induction false} WithoutAppend(rows: seq<Favorite>, g: Favorite, f: Favorite)
    ensures Without(rows + [g], f) == Without(rows, f) + (if g == f then [] else [g])
  {
    if rows == [] {
      assert [g][1..] == [];
    } else {
      assert (rows + [g])[1..] == rows[1..] + [g];
      WithoutAppend(rows[1..], g, f);
    }
  }

  lemma {:induction false} WithoutDistinct(rows: seq<Favorite>, f: Favorite)
    requires Distinct(rows)
    ensures Distinct(Without(rows, f))
  {
    if rows != [] {
      WithoutDistinct(rows[1..], f);
      WithoutMembers(rows[1..], f);
      var rest := Without(rows[1..], f);
      if rows[0] != f {
        assert ([rows[0]] + rest)[1..] == rest;
      }
    }
  }

  lemma {:induction false} AppendDistinct(rows: seq<Favorite>, f: Favorite)
    requires Distinct(rows) && f !in rows
    ensures Distinct(rows + [f])
  {
    if rows == [] {
      assert [f][1..] == [];
    } else {
      assert (rows + [f])[1..] == rows[1..] + [f];
      assert rows == [rows[0]] + rows[1..];
      AppendDistinct(rows[1..], f);
    }
  }

  /** A toggle keeps the table free of duplicate pairs. */
  lemma ToggleDistinct(rows: seq<Favorite>, f: Favorite)
    requires Distinct(rows)
    ensures Distinct(Toggle(rows, f))
  {
    if f in rows {
      WithoutDistinct(rows, f);
    } else {
      AppendDistinct(rows, f);
    }
  }

  /** A toggle removes `f` when it was present and adds it otherwise, and
      leaves every other pair as it was. */
  lemma ToggleMembers(rows: seq<Favorite>, f: Favorite)
    ensures f in Toggle(rows, f) <==> f !in rows
    ensures forall g :: g != f ==> (g in Toggle(rows, f) <==> g in rows)
  {
    WithoutMembers(rows, f);
  }

  /** Toggling twice gives back the same pairs; a pair that was absent
      leaves no trace at all, and one that was present comes back as the
      newest row. */
  lemma ToggleTwice(rows: seq<Favorite>, f: Favorite)
    ensures forall g :: g in Toggle(Toggle(rows, f), f) <==> g in rows
    ensures f !in rows ==> Toggle(Toggle(rows, f), f) == rows
    ensures f in rows ==> Toggle(Toggle(rows, f), f) == Without(rows, f) + [f]
  {
    WithoutMembers(rows, f);
    if f !in rows {
      WithoutAppend(rows, f, f);
      WithoutAbsent(rows, f);
    }
    ToggleMembers(rows, f);
    ToggleMembers(Toggle(rows, f), f);
  }

  // ---------------------------------------------------------------------
  // The queries

  /** `SELECT recipe_id FROM favorites WHERE user_id = $1`, mapped to ids. */
  function IdsOf(rows: seq<Favorite>, user: JsValue): (ids: seq<int>)
    ensures forall id :: id in ids <==> Favorite(user, id) in rows
    ensures |ids| <= |rows|
  {
    if rows == [] then []
    else
      assert rows == [rows[0]] + rows[1..];
      (if rows[0].user == user then [rows[0].recipe] else []) + IdsOf(rows[1..], user)
  }

  predicate NoRepeats(ids: seq<int>) {
    forall i, j :: 0 <= i < j < |ids| ==> ids[i] != ids[j]
  }

  /** On a table without repeated pairs, each id is listed once. */
  lemma {:induction false} IdsOfDistinct(rows: seq<Favorite>, user: JsValue)
    requires Distinct(rows)
    ensures NoRepeats(IdsOf(rows, user))
  {
    if rows != [] {
      var rest := IdsOf(rows[1..], user);
      IdsOfDistinct(rows[1..], user);
      if rows[0].user != user {
        assert IdsOf(rows, user) == rest;
      } else {
        var ids := [rows[0].recipe] + rest;
        assert IdsOf(rows, user) == ids;
        assert rows[0].recipe !in rest;
        forall i, j | 0 <= i < j < |ids|
          ensures ids[i] != ids[j]
        {
          assert ids[j] == rest[j - 1];
          if i > 0 {
            assert ids[i] == rest[i - 1];
          } else {
            assert rest[j - 1] in rest;
          }
        }
      }
    }
  }

  /** The positions among the first `n` rows of the user's favorites whose
      recipe exists, newest first. */
  function Positions(rows: seq<Favorite>, user: JsValue, known: set<int>, n: nat): (p: seq<nat>)
    requires n <= |rows|
    ensures forall i :: 0 <= i < |p| ==> p[i] < n && rows[p[i]].user == user && rows[p[i]].recipe in known
    ensures forall i, j :: 0 <= i < j < |p| ==> p[i] > p[j]
    ensures forall k :: 0 <= k < n && rows[k].user == user && rows[k].recipe in known ==> k in p
  {
    if n == 0 then []
    else
      var rest := Positions(rows, user, known, n - 1);
      if rows[n - 1].user == user && rows[n - 1].recipe in known then [n - 1] + rest else rest
  }

  /** `SELECT recipes.* FROM favorites JOIN recipes ... WHERE favorites.user_id = $1
      ORDER BY favorites.created_at DESC`. */
  function FavoriteRecipes<R>(rows: seq<Favorite>, user: JsValue, recipes: map<int, R>): (r: seq<R>)
    ensures |r| == |Positions(rows, user, recipes.Keys, |rows|)|
  {
    var p := Positions(rows, user, recipes.Keys, |rows|);
    seq(|p|, i requires 0 <= i < |p| => recipes[rows[p[i]].recipe])
  }

  /** The listing holds each of the user's favorites whose recipe exists,
      once per row, newest favorite first. */
  lemma FavoriteRecipesOrdered<R>(rows: seq<Favorite>, user: JsValue, recipes: map<int, R>)
    ensures var p := Positions(rows, user, recipes.Keys, |rows|);
      && (forall i :: 0 <= i < |p| ==>
            FavoriteRecipes(rows, user, recipes)[i] == recipes[rows[p[i]].recipe] && rows[p[i]].user == user)
      && (forall i, j :: 0 <= i < j < |p| ==> p[i] > p[j])
      && (forall k :: 0 <= k < |rows| && rows[k].user == user && rows[k].recipe in recipes ==> k in p)
  {
  }

  // ---------------------------------------------------------------------
  // The handlers

  /** The favorites table. */
  class FavoritesTable {
    var rows: seq<Favorite>

    ghost predicate Valid()
      reads this
    {
      Distinct(rows)
    }

    constructor ()
      ensures rows == [] && Valid()
    {
      rows := [];
    }

    /** `GET /api/favorites/ids`. */
    function GetFavoriteIds(user: Option<Claims>, dbFails: bool): (r: Reply<seq<int>>)
      reads this
      ensures !Truthy(UserIdOf(user)) ==> r == Error(401, "Unauthorized")
      ensures Truthy(UserIdOf(user)) && dbFails ==> r == Error(500, "Server error")
      ensures Truthy(UserIdOf(user)) && !dbFails ==>
        r.Ok? && forall id :: id in r.body <==> Favorite(user.value.id, id) in rows
    {
      var userId := UserIdOf(user);
      if !Truthy(userId) then Error(401, "Unauthorized")
      else if dbFails then Error(500, "Server error")
      else Ok(IdsOf(rows, userId))
    }

    /** `GET /api/favorites`: the user's favorited recipes, newest first. */
    function GetFavorites<R>(user: Option<Claims>, recipes: map<int, R>, dbFails: bool): (r: Reply<seq<R>>)
      reads this
      ensures !Truthy(UserIdOf(user)) ==> r == Error(401, "Unauthorized")
      ensures Truthy(UserIdOf(user)) && dbFails ==> r == Error(500, "Server error")
      ensures Truthy(UserIdOf(user)) && !dbFails ==>
        r.Ok? && |r.body| == |Positions(rows, user.value.id, recipes.Keys, |rows|)|
    {
      var userId := UserIdOf(user);
      if !Truthy(userId) then Error(401, "Unauthorized")
      else if dbFails then Error(500, "Server error")
      else Ok(FavoriteRecipes(rows, userId, recipes))
    }

    /** `POST /api/favorites/:recipeId`: the user check comes first, then the
        id check, then the database. */
    method ToggleFavorite(user: Option<Claims>, recipeParam: string, dbFails: bool) returns (r: Reply<Toggled>)
      requires Valid()
      modifies this
      ensures Valid()
      ensures var userId := UserIdOf(user); var recipeId := RecipeIdOf(recipeParam);
        && (!Truthy(userId) ==> r == Error(401, "Unauthorized") && rows == old(rows))
        && (Truthy(userId) && !NumberTruthy(recipeId) ==> r == Error(400, "Invalid recipe id") && rows == old(rows))
        && (Truthy(userId) && NumberTruthy(recipeId) && dbFails ==> r == Error(500, "Server error") && rows == old(rows))
        && (Truthy(userId) && NumberTruthy(recipeId) && !dbFails ==>
              && rows == Toggle(old(rows), Favorite(userId, recipeId.i))
              && (r == Ok(Removed) <==> Favorite(userId, recipeId.i) in old(rows))
              && (r == Ok(Added) <==> Favorite(userId, recipeId.i) !in old(rows)))
    {
      var userId := UserIdOf(user);
      var recipeId := RecipeIdOf(recipeParam);
      if !Truthy(userId) {
        return Error(401, "Unauthorized");
      }
      if !NumberTruthy(recipeId) {
        return Error(400, "Invalid recipe id");
      }
      if dbFails {
        return Error(500, "Server error");
      }
      var f := Favorite(userId, recipeId.i);
      ToggleDistinct(rows, f);
      var present := f in rows;
      if present {
        rows := Without(rows, f);
        return Ok(Removed);
      }
      rows := rows + [f];
      r := Ok(Added);
    }
  }
}
