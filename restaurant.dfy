/** A restaurant listing (model/Restaurant.java): an immutable record whose
    compact constructor rejects six kinds of bad input. */
module RestaurantModel {
  import opened Common

  /** The thirteen record components. Doubles are modelled as reals
      (NaN and infinities are not represented). */
  datatype Restaurant = Restaurant(
    name: NString,
    cuisine: NString,
    rating: real,
    estimatedDeliveryTimeMinutes: int,
    distance: real,
    isPromoAvailable: bool,
    promoDescription: Option<string>,
    imageLink: NString,
    restaurantId: NString,
    latitude: real,
    longitude: real,
    estimatedDeliveryFee: Option<real>,
    closingSoonText: Option<string>)

  /** The `IllegalArgumentException`s the constructor throws, one per check. */
  datatype ValidationError =
    | BlankName
    | BlankCuisine
    | RatingOutOfRange
    | NegativeDeliveryTime
    | NegativeDistance
    | BlankRestaurantId

  /** The six conditions a record must meet; the other seven components are unchecked. */
  predicate Valid(r: Restaurant) {
    && !IsBlank(r.name)
    && !IsBlank(r.cuisine)
    && 0.0 <= r.rating <= 5.0
    && r.estimatedDeliveryTimeMinutes >= 0
    && r.distance >= 0.0
    && !IsBlank(r.restaurantId)
  }

  /** `new Restaurant(...)` applied to the components of `c`: the record itself,
      or the exception of the first check (in source order) that fails. */
  function NewRestaurant(c: Restaurant): (res: Result<Restaurant, ValidationError>)
    ensures res.Ok? <==> Valid(c)
    ensures res.Ok? ==> res.value == c
    ensures res == Err(BlankName) <==> IsBlank(c.name)
    ensures res == Err(BlankCuisine) <==> !IsBlank(c.name) && IsBlank(c.cuisine)
    ensures res == Err(RatingOutOfRange) <==>
      !IsBlank(c.name) && !IsBlank(c.cuisine) && !(0.0 <= c.rating <= 5.0)
    ensures res == Err(NegativeDeliveryTime) <==>
      !IsBlank(c.name) && !IsBlank(c.cuisine) && 0.0 <= c.rating <= 5.0
      && c.estimatedDeliveryTimeMinutes < 0
    ensures res == Err(NegativeDistance) <==>
      !IsBlank(c.name) && !IsBlank(c.cuisine) && 0.0 <= c.rating <= 5.0
      && c.estimatedDeliveryTimeMinutes >= 0 && c.distance < 0.0
    ensures res == Err(BlankRestaurantId) <==>
      !IsBlank(c.name) && !IsBlank(c.cuisine) && 0.0 <= c.rating <= 5.0
      && c.estimatedDeliveryTimeMinutes >= 0 && c.distance >= 0.0 && IsBlank(c.restaurantId)
  {
    if IsBlank(c.name) then Err(BlankName)
    else if IsBlank(c.cuisine) then Err(BlankCuisine)
    else if c.rating < 0.0 || c.rating > 5.0 then Err(RatingOutOfRange)
    else if c.estimatedDeliveryTimeMinutes < 0 then Err(NegativeDeliveryTime)
    else if c.distance < 0.0 then Err(NegativeDistance)
    else if IsBlank(c.restaurantId) then Err(BlankRestaurantId)
    else Ok(c)
  }

  /** A name, cuisine or id is rejected exactly when it is null or made only of
      characters at or below U+0020 (what `trim().isEmpty()` tests). */
  lemma BlankMeansOnlyTrimmable(s: NString)
    ensures IsBlank(s) <==> s.None? || forall i :: 0 <= i < |s.value| ==> IsTrimmable(s.value[i])
  {
    if s.Some? {
      TrimEmptyIffAllTrimmable(s.value);
    }
  }

  /** Records are compared component by component: the same id with another
      rating is a different record, and a set keeps both. */
  lemma SameIdOtherRatingIsDistinct(r: Restaurant, rating: real)
    requires rating != r.rating
    ensures r.(rating := rating) != r
    ensures |{r, r.(rating := rating)}| == 2
  {
  }
}
