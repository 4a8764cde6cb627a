/** The field types every record field is declared with; they decide which
    variable class holds a field, which input edits it and how the CSV
    store converts it. */
module Constants {
  datatype FieldType =
    | String
    | StringList
    | ShortStringList
    | IsoDateString
    | LongString
    | DecimalType
    | IntegerType
    | BooleanType
}
