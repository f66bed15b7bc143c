/** The dictionaries the record classes convert to and from, i.e. the shape of
    the JSON objects in the hotels file and the customers file. The conversion
    code needs at least these keys with values of these types and ignores any
    other key; the datatypes hold exactly these keys, so a stored object with
    extra keys is outside the model. */
module Records {

  datatype Option<T> = None | Some(value: T)

  /** `{"nombre": ..., "email": ...}` */
  datatype ClienteDict = ClienteDict(nombre: string, email: string)

  /** `{"cliente": {...}, "hotel": <hotel name>, "fecha": ...}` */
  datatype ReservaDict = ReservaDict(cliente: ClienteDict, hotel: string, fecha: string)

  /** `{"nombre": ..., "ubicacion": ..., "habitaciones": ..., "reservas": [...]}` */
  datatype HotelDict = HotelDict(nombre: string, ubicacion: string, habitaciones: int, reservas: seq<ReservaDict>)
}
