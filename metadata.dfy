/** Per-location data-quality counters (model/MetaData.java): a total and,
    for each of thirteen tracked fields, a null count and a not-null count. */
module MetaDataModel {
  import opened Common

  /** The thirteen tracked fields, one per pair of counters. */
  datatype Field =
    | Name
    | Cuisine
    | Rating
    | EstimatedDeliveryTime
    | Distance
    | IsPromoAvailable
    | PromoDescription
    | ImageLink
    | RestaurantId
    | Latitude
    | Longitude
    | EstimatedDeliveryFee
    | ClosingSoonText

  /** The `case` label under which the increment methods select a field's counter. */
  function Key(f: Field): string {
    match f
    case Name => "name"
    case Cuisine => "cuisine"
    case Rating => "rating"
    case EstimatedDeliveryTime => "estimatedDeliveryTimeMinutes"
    case Distance => "distance"
    case IsPromoAvailable => "isPromoAvailable"
    case PromoDescription => "promoDescription"
    case ImageLink => "imageLink"
    case RestaurantId => "restaurantId"
    case Latitude => "latitude"
    case Longitude => "longitude"
    case EstimatedDeliveryFee => "estimatedDeliveryFee"
    case ClosingSoonText => "closingSoonText"
  }

  /** The string `switch` of the increment methods: the field a name selects,
      or `None` for a name with no `case` (there is no `default` branch). */
  function FieldOf(key: string): (f: Option<Field>)
    ensures f.Some? ==> Key(f.value) == key
  {
    if key == "name" then Some(Name)
    else if key == "cuisine" then Some(Cuisine)
    else if key == "rating" then Some(Rating)
    else if key == "estimatedDeliveryTimeMinutes" then Some(EstimatedDeliveryTime)
    else if key == "distance" then Some(Distance)
    else if key == "isPromoAvailable" then Some(IsPromoAvailable)
    else if key == "promoDescription" then Some(PromoDescription)
    else if key == "imageLink" then Some(ImageLink)
    else if key == "restaurantId" then Some(RestaurantId)
    else if key == "latitude" then Some(Latitude)
    else if key == "longitude" then Some(Longitude)
    else if key == "estimatedDeliveryFee" then Some(EstimatedDeliveryFee)
    else if key == "closingSoonText" then Some(ClosingSoonText)
    else None
  }

  /** Every field is selected by its own label, so the switch and `Key` are inverse. */
  lemma FieldOfKey(f: Field)
    ensures FieldOf(Key(f)) == Some(f)
  {
    match f
    case Name =>
    case Cuisine =>
    case Rating =>
    case EstimatedDeliveryTime =>
    case Distance =>
    case IsPromoAvailable =>
    case PromoDescription =>
    case ImageLink =>
    case RestaurantId =>
    case Latitude =>
    case Longitude =>
    case EstimatedDeliveryFee =>
    case ClosingSoonText =>
  }

  /** The two counters of one field. */
  datatype FieldCounts = FieldCounts(nulls: int, notNulls: int)

  /** The twenty-seven counters of a MetaData as one value. */
  datatype Counts = Counts(
    total: int,
    name: FieldCounts,
    cuisine: FieldCounts,
    rating: FieldCounts,
    estimatedDeliveryTime: FieldCounts,
    distance: FieldCounts,
    isPromoAvailable: FieldCounts,
    promoDescription: FieldCounts,
    imageLink: FieldCounts,
    restaurantId: FieldCounts,
    latitude: FieldCounts,
    longitude: FieldCounts,
    estimatedDeliveryFee: FieldCounts,
    closingSoonText: FieldCounts)
  {
    /** The counters of field `f`. */
    function Of(f: Field): FieldCounts {
      match f
      case Name => name
      case Cuisine => cuisine
      case Rating => rating
      case EstimatedDeliveryTime => estimatedDeliveryTime
      case Distance => distance
      case IsPromoAvailable => isPromoAvailable
      case PromoDescription => promoDescription
      case ImageLink => imageLink
      case RestaurantId => restaurantId
      case Latitude => latitude
      case Longitude => longitude
      case EstimatedDeliveryFee => estimatedDeliveryFee
      case ClosingSoonText => closingSoonText
    }

    /** These counters with those of `f` replaced by `fc`. */
    function With(f: Field, fc: FieldCounts): Counts {
      match f
      case Name => this.(name := fc)
      case Cuisine => this.(cuisine := fc)
      case Rating => this.(rating := fc)
      case EstimatedDeliveryTime => this.(estimatedDeliveryTime := fc)
      case Distance => this.(distance := fc)
      case IsPromoAvailable => this.(isPromoAvailable := fc)
      case PromoDescription => this.(promoDescription := fc)
      case ImageLink => this.(imageLink := fc)
      case RestaurantId => this.(restaurantId := fc)
      case Latitude => this.(latitude := fc)
      case Longitude => this.(longitude := fc)
      case EstimatedDeliveryFee => this.(estimatedDeliveryFee := fc)
      case ClosingSoonText => this.(closingSoonText := fc)
    }

    /** One more null observation of `f`. */
    function AddNull(f: Field): Counts {
      With(f, Of(f).(nulls := Of(f).nulls + 1))
    }

    /** What `incrementNullCount(key)` does: the field the switch selects
        gets one more null observation; an unknown key changes nothing. */
    function AddNullAt(key: string): Counts {
      match FieldOf(key)
      case Some(f) => AddNull(f)
      case None => this
    }
    /** What `incrementNotNullCount(key)` does, on the not-null side. */
    function AddNotNullAt(key: string): Counts {
      match FieldOf(key)
      case Some(f) => AddNotNull(f)
      case None => this
    }

    /** One more present observation of `f`. */
    function AddNotNull(f: Field): Counts {
      With(f, Of(f).(notNulls := Of(f).notNulls + 1))
    }
  }

  /** Replacing the counters of one field leaves the total and every other field alone. */
  lemma WithOnlyChangesField(c: Counts, f: Field, fc: FieldCounts, g: Field)
    ensures c.With(f, fc).total == c.total
    ensures c.With(f, fc).Of(g) == if g == f then fc else c.Of(g)
  {
  }

  /** The switch selects field `g` exactly for `g`'s own label, and no field
      for a name that is no field's label. */
  lemma FieldOfSelects(key: string, g: Field)
    ensures FieldOf(key) == Some(g) <==> key == Key(g)
    ensures FieldOf(key).None? <==> forall f :: Key(f) != key
  {
    FieldOfKey(g);
    forall f | FieldOf(key).None?
      ensures Key(f) != key
    {
      FieldOfKey(f);
    }
  }

  /** A field's own label makes the string-keyed increments count that field. */
  lemma IncrementAtKnownKey(c: Counts, f: Field)
    ensures c.AddNullAt(Key(f)) == c.AddNull(f) && c.AddNotNullAt(Key(f)) == c.AddNotNull(f)
  {
    FieldOfKey(f);
  }

  /** A name that is no field's label changes no counter (there is no `default`). */
  lemma IncrementAtUnknownKey(c: Counts, key: string)
    requires forall f :: Key(f) != key
    ensures c.AddNullAt(key) == c && c.AddNotNullAt(key) == c
  {
    FieldOfSelects(key, Name);
  }

  /** One more observation of `f` raises exactly one counter of `f` by one:
      the total and every other field's counters are unchanged. */
  lemma AddOnlyChangesField(c: Counts, f: Field, g: Field)
    ensures c.AddNull(f).total == c.total && c.AddNotNull(f).total == c.total
    ensures c.AddNull(f).Of(g) == if g == f then FieldCounts(c.Of(g).nulls + 1, c.Of(g).notNulls) else c.Of(g)
    ensures c.AddNotNull(f).Of(g) == if g == f then FieldCounts(c.Of(g).nulls, c.Of(g).notNulls + 1) else c.Of(g)
  {
    WithOnlyChangesField(c, f, c.Of(f).(nulls := c.Of(f).nulls + 1), g);
    WithOnlyChangesField(c, f, c.Of(f).(notNulls := c.Of(f).notNulls + 1), g);
  }

  /** All counters at zero, as a fresh MetaData has them. */
  function ZeroCounts(): (c: Counts)
    ensures c.total == 0 && forall f: Field :: c.Of(f) == FieldCounts(0, 0)
  {
    var z := FieldCounts(0, 0);
    Counts(0, z, z, z, z, z, z, z, z, z, z, z, z, z)
  }

  /** The state of a MetaData once its scrape has finished, carried as a value. */
  datatype MetaDataView = MetaDataView(location: NString, counts: Counts)

  class MetaData {
    /** Set by the constructor; no method writes it again. */
    const location: NString
    /** `totalCount` and the twenty-six per-field `...NullCount` and
        `...NotNullCount` fields, held as one value. */
    var counts: Counts

    function View(): MetaDataView
      reads this
    {
      MetaDataView(location, counts)
    }

    /** Stores the location; all twenty-seven counters start at zero. */
    constructor (location: NString)
      ensures this.location == location && counts == ZeroCounts()
    {
      this.location := location;
      counts := ZeroCounts();
    }

    /** Raises the total by one and changes nothing else. */
    method IncrementTotalCount()
      modifies this
      ensures counts == old(counts).(total := old(counts.total) + 1)
    {
      counts := counts.(total := counts.total + 1);
    }

    /** `incrementNullCount(field)`: the switch selects a field by its label and
        raises that field's null counter; an unknown label changes nothing. */
    method IncrementNullCount(field: string)
      modifies this
      ensures counts == old(counts).AddNullAt(field)
    {
      match FieldOf(field)
      case Some(f) => CountNull(f);
      case None =>
    }

    /** One arm of that switch: raises the null counter of `f` by one. */
    method CountNull(f: Field)
      modifies this
      ensures counts == old(counts).AddNull(f)
    {
      counts := counts.AddNull(f);
    }

    /** `incrementNotNullCount(field)`: the switch selects a field by its label and
        raises that field's not-null counter; an unknown label changes nothing. */
    method IncrementNotNullCount(field: string)
      modifies this
      ensures counts == old(counts).AddNotNullAt(field)
    {
      match FieldOf(field)
      case Some(f) => CountNotNull(f);
      case None =>
    }

    /** One arm of that switch: raises the not-null counter of `f` by one. */
    method CountNotNull(f: Field)
      modifies this
      ensures counts == old(counts).AddNotNull(f)
    {
      counts := counts.AddNotNull(f);
    }

    /** The getters: each returns a current value and changes nothing. The
        twenty-six per-field getters are modelled as one pair selected by field. */
    method GetLocation() returns (l: NString)
      ensures l == location
    {
      l := location;
    }

    method GetTotalCount() returns (n: int)
      ensures n == counts.total
    {
      n := counts.total;
    }

    method GetNullCount(f: Field) returns (n: int)
      ensures n == counts.Of(f).nulls
    {
      n := counts.Of(f).nulls;
    }

    method GetNotNullCount(f: Field) returns (n: int)
      ensures n == counts.Of(f).notNulls
    {
      n := counts.Of(f).notNulls;
    }
  }
}
