/** The two INSERT statements of the data-access layer, `addUser` and
    `addProperty`: a constant statement naming the table's columns, with one
    placeholder `$k` per column, and the parameter list built from the record
    in the same order. */
module Inserts {
  import opened JsValues

  /** An INSERT statement: its table and columns, the placeholder numbers of
      its VALUES list as written, and the parameter values passed with it. */
  datatype Insert<C> = Insert(table: string, columns: seq<C>, placeholders: seq<nat>, values: seq<Value>)

  /** Each column of the statement receives the record's value for that column,
      through placeholder `$1`, `$2`, ... in column order. */
  predicate BindsColumns<C>(r: Insert<C>, field: C -> Value) {
    && |r.placeholders| == |r.columns| == |r.values|
    && forall i :: 0 <= i < |r.columns| ==> r.placeholders[i] == i + 1 && r.values[i] == field(r.columns[i])
  }

  /** No column is named twice. */
  predicate Distinct<C(==)>(columns: seq<C>) {
    forall i, j :: 0 <= i < j < |columns| ==> columns[i] != columns[j]
  }

  /** The column names as the statement writes them. */
  function Names<C>(columns: seq<C>, name: C -> string): seq<string> {
    seq(|columns|, i requires 0 <= i < |columns| => name(columns[i]))
  }

  datatype NewUser = NewUser(name: string, email: string, password: string)

  datatype UserColumn = Name | Email | Password

  /** The name of user column `c` in the `users` table. */
  function UserColumnName(c: UserColumn): string {
    match c
    case Name => "name"
    case Email => "email"
    case Password => "password"
  }

  /** The column list of the `users` insert, in the order it names them. */
  const UserColumns: seq<UserColumn> := [Name, Email, Password]

  /** The value a new user stores in column `c`. */
  function UserField(u: NewUser, c: UserColumn): Value {
    match c
    case Name => Str(u.name)
    case Email => Str(u.email)
    case Password => Str(u.password)
  }

  /** `addUser`: insert name, email and password into `users`. */
  function AddUser(u: NewUser): (r: Insert<UserColumn>)
    ensures r.table == "users" && r.columns == UserColumns
    ensures BindsColumns(r, c => UserField(u, c))
  {
    Insert("users", UserColumns, [1, 2, 3], [Str(u.name), Str(u.email), Str(u.password)])
  }

  /** Where column `c` stands in the `users` column list. */
  function UserColumnPosition(c: UserColumn): nat {
    match c
    case Name => 0
    case Email => 1
    case Password => 2
  }

  /** The user columns are listed once each, and all of them. */
  lemma UserColumnsOnce()
    ensures Distinct(UserColumns) && forall c :: c in UserColumns
  {
    var cs := UserColumns;
    assert forall i :: 0 <= i < |cs| ==> UserColumnPosition(cs[i]) == i;
    forall c ensures c in cs {
      assert cs[UserColumnPosition(c)] == c;
    }
  }

  /** The column names the `users` insert writes are all different. */
  lemma UserNamesOnce()
    ensures Distinct(Names(UserColumns, UserColumnName))
  {
    var cs := UserColumns;
    UserColumnsOnce();
    var names := Names(cs, UserColumnName);
    forall i, j | 0 <= i < j < |names| ensures names[i] != names[j] {
      if names[i] == names[j] {
        UserColumnNamesDistinct(cs[i], cs[j]);
      }
    }
  }

  datatype NewProperty = NewProperty(
    ownerId: int,
    title: string,
    description: string,
    thumbnailPhotoUrl: string,
    coverPhotoUrl: string,
    costPerNight: int,
    parkingSpaces: int,
    numberOfBathrooms: int,
    numberOfBedrooms: int,
    country: string,
    street: string,
    city: string,
    province: string,
    postCode: string)

  datatype PropertyColumn =
    | OwnerIdColumn | TitleColumn | DescriptionColumn | ThumbnailPhotoUrlColumn | CoverPhotoUrlColumn
    | CostPerNightColumn | ParkingSpacesColumn | NumberOfBathroomsColumn | NumberOfBedroomsColumn
    | CountryColumn | StreetColumn | CityColumn | ProvinceColumn | PostCodeColumn

  /** The name of property column `c` in the `properties` table. */
  function PropertyColumnName(c: PropertyColumn): string {
    match c
    case OwnerIdColumn => "owner_id"
    case TitleColumn => "title"
    case DescriptionColumn => "description"
    case ThumbnailPhotoUrlColumn => "thumbnail_photo_url"
    case CoverPhotoUrlColumn => "cover_photo_url"
    case CostPerNightColumn => "cost_per_night"
    case ParkingSpacesColumn => "parking_spaces"
    case NumberOfBathroomsColumn => "number_of_bathrooms"
    case NumberOfBedroomsColumn => "number_of_bedrooms"
    case CountryColumn => "country"
    case StreetColumn => "street"
    case CityColumn => "city"
    case ProvinceColumn => "province"
    case PostCodeColumn => "post_code"
  }

  /** The column list of the `properties` insert, in the order it names them. */
  const PropertyColumns: seq<PropertyColumn> :=
    [OwnerIdColumn, TitleColumn, DescriptionColumn, ThumbnailPhotoUrlColumn, CoverPhotoUrlColumn,
     CostPerNightColumn, ParkingSpacesColumn, NumberOfBathroomsColumn, NumberOfBedroomsColumn,
     CountryColumn, StreetColumn, CityColumn, ProvinceColumn, PostCodeColumn]

  /** The value a new property stores in column `c`; the cost per night is
      stored as given, not scaled. */
  function PropertyField(p: NewProperty, c: PropertyColumn): Value {
    match c
    case OwnerIdColumn => Num(p.ownerId)
    case TitleColumn => Str(p.title)
    case DescriptionColumn => Str(p.description)
    case ThumbnailPhotoUrlColumn => Str(p.thumbnailPhotoUrl)
    case CoverPhotoUrlColumn => Str(p.coverPhotoUrl)
    case CostPerNightColumn => Num(p.costPerNight)
    case ParkingSpacesColumn => Num(p.parkingSpaces)
    case NumberOfBathroomsColumn => Num(p.numberOfBathrooms)
    case NumberOfBedroomsColumn => Num(p.numberOfBedrooms)
    case CountryColumn => Str(p.country)
    case StreetColumn => Str(p.street)
    case CityColumn => Str(p.city)
    case ProvinceColumn => Str(p.province)
    case PostCodeColumn => Str(p.postCode)
  }

  /** `addProperty`: insert the fourteen fields into `properties`; value k,
      bound to `$k`, is the field the column at the same position stores. */
  function AddProperty(p: NewProperty): (r: Insert<PropertyColumn>)
    ensures r.table == "properties" && r.columns == PropertyColumns && |r.columns| == 14
    ensures BindsColumns(r, c => PropertyField(p, c))
  {
    var r := Insert(
      "properties",
      PropertyColumns,
      [1, 2, 3, 4, 5, 6, 7, 8, 9, 10, 11, 12, 13, 14],
      [Num(p.ownerId), Str(p.title), Str(p.description), Str(p.thumbnailPhotoUrl), Str(p.coverPhotoUrl),
       Num(p.costPerNight), Num(p.parkingSpaces), Num(p.numberOfBathrooms), Num(p.numberOfBedrooms),
       Str(p.country), Str(p.street), Str(p.city), Str(p.province), Str(p.postCode)]);
    assert BindsColumns(r, c => PropertyField(p, c)) by {
      forall i | 0 <= i < |r.columns|
        ensures r.placeholders[i] == i + 1 && r.values[i] == PropertyField(p, r.columns[i])
      {
        if i < 7 {
          if i < 3 {} else {}
        } else {
          if i < 10 {} else {}
        }
      }
    }
    r
  }

  /** Where column `c` stands in the `properties` column list. */
  function PropertyColumnPosition(c: PropertyColumn): nat {
    match c
    case OwnerIdColumn => 0
    case TitleColumn => 1
    case DescriptionColumn => 2
    case ThumbnailPhotoUrlColumn => 3
    case CoverPhotoUrlColumn => 4
    case CostPerNightColumn => 5
    case ParkingSpacesColumn => 6
    case NumberOfBathroomsColumn => 7
    case NumberOfBedroomsColumn => 8
    case CountryColumn => 9
    case StreetColumn => 10
    case CityColumn => 11
    case ProvinceColumn => 12
    case PostCodeColumn => 13
  }

  /** The property columns are listed once each, and all of them. */
  lemma PropertyColumnsOnce()
    ensures Distinct(PropertyColumns) && forall c :: c in PropertyColumns
  {
    var cs := PropertyColumns;
    assert forall i :: 0 <= i < |cs| ==> PropertyColumnPosition(cs[i]) == i;
    forall c ensures c in cs {
      assert cs[PropertyColumnPosition(c)] == c;
    }
  }

  /** The column names the `properties` insert writes are all different. */
  lemma PropertyNamesOnce()
    ensures Distinct(Names(PropertyColumns, PropertyColumnName))
  {
    var cs := PropertyColumns;
    PropertyColumnsOnce();
    var names := Names(cs, PropertyColumnName);
    forall i, j | 0 <= i < j < |names| ensures names[i] != names[j] {
      if names[i] == names[j] {
        PropertyColumnNamesDistinct(cs[i], cs[j]);
      }
    }
  }

  /** Different user columns have different names. */
  lemma UserColumnNamesDistinct(c: UserColumn, d: UserColumn)
    requires UserColumnName(c) == UserColumnName(d)
    ensures c == d
  {
  }

  /** Different property columns have different names. */
  lemma PropertyColumnNamesDistinct(c: PropertyColumn, d: PropertyColumn)
    requires PropertyColumnName(c) == PropertyColumnName(d)
    ensures c == d
  {
  }
}
