/**
  The two record shapes the collection view and the tasting-record form work
  on.  `type` is a reserved word in Dafny, so the tea type is `teaType`.
  JavaScript numbers that hold counts are `int`; those that can hold
  fractions (ratings, prices, grams, slider readings) are `real`.
 */
module TeaTypes {

  /** A tea in the collection. */
  datatype Tea = Tea(
    id: int,
    name: string,
    teaType: string,
    origin: string,
    year: int,
    rating: real,
    brewCount: int,
    dateAdded: string,
    notes: string,
    image: string,
    flavorProfile: seq<string>,
    price: real)

  /** One tasting session as the form records it. */
  datatype TeaRecord = TeaRecord(
    name: string,
    teaType: string,
    origin: string,
    year: string,
    grade: string,
    weight: real,
    waterTemp: real,
    steepTime: real,
    rounds: real,
    rating: real,
    notes: string,
    flavorTags: seq<string>,
    brewingMethod: string)
}
