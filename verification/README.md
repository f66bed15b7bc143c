# Hotel reservation system — a Dafny model

This project models the domain core of a small hotel reservation system: the
`Hotel`, `Reserva` (reservation) and `Cliente` (customer) records, and the
`SistemaReservas` manager that owns the list of hotels and the list of
customers.

The manager creates, deletes, shows and modifies hotels and customers, books
and cancels reservations, and rewrites a JSON file after each change it makes.
It keys hotels by name and customers by email. Duplicates are allowed, and the
first match wins.

The model keeps the form of the Python program:

- The three records and the manager are classes whose fields are updated in
  place.
- A reservation is matched by object identity, as Python's `in` and
  `list.remove` match an object without `__eq__`.
- A reservation booked through the manager points to the customer object of
  the customer list, so renaming that customer shows in the hotels'
  dictionaries too. A reservation loaded from a file points to a copy (see
  below).
- Each backing file is a field holding what the file contains: `None` while
  there is no such file, otherwise the list of dictionaries last written.
  Saving assigns that field.
- The printed messages of `crear_reserva` and `cancelar_reserva` become a
  returned `Resultado`.

Modules:

- `Sequences`: first occurrence (`IndexOf`) and removal at a position
  (`RemoveAt`), which together are what `list.remove` does, and lists
  without repetitions (`SinRepetir`), the shape of a freshly loaded list.
- `Records`: the dictionary shapes of the three records (`ClienteDict`,
  `ReservaDict`, `HotelDict`).
- `Domain`: the classes `Cliente`, `Reserva` and `Hotel`, with the room guard,
  cancellation, and the conversions to and from dictionaries.
- `Lookup`: the linear scans of the manager. These are first match by name, by
  email, or by email and date, and removal of every record with a key.
- `Reservations`: the class `SistemaReservas`.

Behaviour worth knowing, modelled as the code has it:

- A hotel is booked only while it holds fewer reservations than rooms.
  `modificar_hotel` does not re-check that, so it can leave a hotel holding
  more reservations than rooms.
- The number of rooms is any integer. A negative number is accepted; such a
  hotel can never be booked.
- A reservation rebuilt from a file points to a fresh stub hotel that has only
  the name. Its location is empty and it has zero rooms and no reservations.
  It also points to a fresh customer object, not to the one in the customer
  list.
- Deleting a customer leaves the reservations that refer to that customer in
  place.
- `cancelar_reserva` requires a customer with the given email to exist. It
  then removes the first reservation of the first hotel with that name whose
  customer email and date match. Matching is by the email stored in the
  reservation's customer object.

## Model

| member | source | states |
|---|---|---|
| Sequences.IndexOf | src/main.py:45-46 | The position `list.remove` acts on: -1 exactly when the element is absent; otherwise the element is at that position and at no earlier one |
| Sequences.RemoveAtKeepsOthers | src/main.py:46 | Removing at a position shortens the list by one, keeps the elements before it and shifts the ones after it down by one, in order, and loses exactly one copy of the removed element |
| Sequences.SinRepetirDistintos | src/main.py:180 | In a list without repetitions, such as a freshly loaded hotel or customer list, different positions hold different objects |
| Domain.Cliente.constructor | src/main.py:122-130 | A customer holds the given name and email |
| Domain.Cliente.FromDict | src/main.py:138-148 | Rebuilding a customer gives a new object with the dictionary's name and email, whose dictionary is the one it was built from (round trip) |
| Domain.Reserva.constructor | src/main.py:80-90 | A reservation holds the given customer, hotel and date |
| Domain.Reserva.FromDict | src/main.py:98-116 | Rebuilding a reservation gives a new customer with the stored dictionary and a new stub hotel with the stored name, an empty location, zero rooms and no reservations; converting back gives the stored dictionary (round trip) |
| Domain.ReservasDict | src/main.py:60 | The list of reservation dictionaries has one entry per reservation, each the dictionary of the reservation at the same position |
| Domain.Hotel.constructor | src/main.py:11-22 | A new hotel holds the given name, location and rooms, and no reservations |
| Domain.Hotel.ReservarHabitacion | src/main.py:32-35 | Succeeds exactly when fewer reservations than rooms are held, and then appends the reservation at the end; on failure nothing changes; a hotel within its capacity stays within it |
| Domain.Hotel.CancelarReserva | src/main.py:45-48 | Succeeds exactly when this very reservation object is held, and then removes its first occurrence with the others kept in order; otherwise nothing changes; capacity is kept |
| Domain.Hotel.FromDict | src/main.py:56-74 | Rebuilding a hotel keeps name, location and rooms, rebuilds each reservation with its own fresh customer and stub hotel, and converts back to the same dictionary (round trip) |
| Lookup.PrimerHotel | src/main.py:315 | Position of the first hotel with the name: -1 exactly when no hotel has it; otherwise that hotel has it and no earlier one does |
| Lookup.PrimerCliente | src/main.py:314 | Position of the first customer with the email: -1 exactly when no customer has it; otherwise that customer has it and no earlier one does |
| Lookup.PrimeraReserva | src/main.py:343-350 | Position of the first reservation whose customer email and date both match: -1 exactly when there is none; otherwise that one matches and no earlier one does |
| Lookup.PrimeraReservaSeQuita | src/main.py:343-351 | The reservation found by the email-and-date scan is the first occurrence of that object, so the hotel's cancellation removes exactly the scanned position |
| Lookup.SinHotel | src/main.py:223 | The kept hotels are hotels of the list without the name, and every hotel of the list without the name is kept |
| Lookup.SinCliente | src/main.py:273-275 | The kept customers are customers of the list without the email, and every customer of the list without the email is kept |
| Lookup.SinHotelAppend | src/main.py:223 | The hotel filter distributes over concatenation, so the kept hotels keep their relative order |
| Lookup.SinClienteAppend | src/main.py:273-275 | The customer filter distributes over concatenation, so the kept customers keep their relative order |
| Lookup.SinHotelAusente | src/main.py:222-224 | Deleting a name no hotel has leaves the list as it was |
| Lookup.SinClienteAusente | src/main.py:273-276 | Deleting an email no customer has leaves the list as it was |
| Lookup.PrimerHotelAppend | src/main.py:212-213 | After a hotel is appended, a lookup by name finds an earlier match if one exists, otherwise the new hotel exactly when it has the name |
| Lookup.PrimerClienteAppend | src/main.py:263-264 | After a customer is appended, a lookup by email finds an earlier match if one exists, otherwise the new customer exactly when it has the email |
| Reservations.HotelesDict | src/main.py:185 | The hotels file holds one dictionary per hotel, each the dictionary of the hotel at the same position |
| Reservations.ClientesDict | src/main.py:202 | The customers file holds one dictionary per customer, each the dictionary of the customer at the same position |
| Reservations.SistemaReservas.constructor | src/main.py:154-168 | The manager remembers both files and loads both lists from them, so that saving right away writes back what was read (for stored objects with no extra keys); every loaded hotel and customer is new and an object of its own, with no object at two positions even when two stored records are equal; no loaded reservation points to a customer of the customer list |
| Reservations.SistemaReservas.CargarHoteles | src/main.py:170-180 | An absent file gives no hotels; otherwise one new hotel per stored dictionary whose conversion gives the stored dictionary back, no two positions holding the same object; every reservation of a loaded hotel points to a new customer and to a new stub hotel, with an empty location, zero rooms and no reservations, that is none of the loaded hotels |
| Reservations.SistemaReservas.CargarClientes | src/main.py:187-197 | An absent file gives no customers; otherwise one new customer per stored dictionary whose conversion gives the stored dictionary back, no two positions holding the same object |
| Reservations.SistemaReservas.GuardarHoteles | src/main.py:182-185 | The hotels file now holds the dictionaries of the current hotels; nothing else changes |
| Reservations.SistemaReservas.GuardarClientes | src/main.py:199-202 | The customers file now holds the dictionaries of the current customers; nothing else changes |
| Reservations.SistemaReservas.CrearHotel | src/main.py:212-214 | The old hotels are kept as a prefix and one new hotel with the given fields and no reservations follows; if the name was new, a lookup now finds it; the hotels file is saved; customers are untouched |
| Reservations.SistemaReservas.EliminarHotel | src/main.py:222-224 | The list becomes the ordered filter without the name, after which no hotel has it; a missing name leaves the list as it was; the file is saved either way |
| Reservations.SistemaReservas.MostrarHotel | src/main.py:234-237 | The dictionary of the first hotel with the name, or None exactly when no hotel has it |
| Reservations.SistemaReservas.ModificarHotel | src/main.py:249-254 | Only the first hotel with the name may change: its location and rooms are set (without a capacity check), its reservations stay, and the file is saved; a missing name changes and saves nothing |
| Reservations.SistemaReservas.CrearCliente | src/main.py:263-265 | The old customers are kept as a prefix and one new customer with the given fields follows; if the email was new, a lookup now finds it; the customers file is saved |
| Reservations.SistemaReservas.EliminarCliente | src/main.py:273-276 | The list becomes the ordered filter without the email, after which no customer has it; a missing email leaves the list as it was; the file is saved either way |
| Reservations.SistemaReservas.MostrarCliente | src/main.py:286-289 | The dictionary of the first customer with the email, or None exactly when no customer has it |
| Reservations.SistemaReservas.ModificarCliente | src/main.py:298-302 | Only the first customer with the email may change: it is renamed and the customers file is saved; a missing email changes and saves nothing |
| Reservations.SistemaReservas.CrearReserva | src/main.py:312-323 | Reports "not found" when the customer or the hotel is missing, "no rooms" when the first hotel with the name is full, and otherwise appends to it a new reservation of the first matching customer on that date and saves the hotels file; on failure no hotel changes; only that hotel may change, customers never do; every hotel within its capacity stays within it |
| Reservations.SistemaReservas.CancelarReserva | src/main.py:338-356 | Reports "not found" when the customer or the hotel is missing, "no reservation" when the first hotel with the name has no reservation with that email and date, and otherwise removes the first such reservation (the others keep their order) and saves the hotels file; only that hotel's reservation list may change, and it stays within its capacity |

## Left out

- File access (paths, existence checks, opening files, JSON text) is not modelled. A file is its parsed contents, or `None` when it does not exist. The default file names `hoteles.json` and `clientes.json` are therefore not modelled either.
- Stored objects with keys beyond the ones the conversions read are outside the model. The Python program ignores such keys when loading and drops them on the next save, so for such a file loading then saving does not write back what was read.
- I/O failures and malformed files are not modelled: missing keys, values of the wrong type, and invalid JSON. The dictionaries are typed records, so only well-formed data can be loaded.
- Printed messages are not modelled as output; the two operations that print return a `Resultado` instead.
- `if cliente and hotel` and `if reserva and ...` are modelled as "was found". These objects define neither `__bool__` nor `__len__`, so in Python they are always truthy.
- Reservations.SistemaReservas.constructor: of what CargarHoteles states about the loaded reservations, it passes on only that their customers are not objects of the customer list. The rest (fresh stub hotels outside the hotel list) is stated by CargarHoteles, whose result the constructor stores unchanged.
- Reservations.SistemaReservas.constructor: loads the customers before the hotels, while the source loads the hotels first. The two loads read different files and build unrelated objects, so the order is not observable.
- Reservations.SistemaReservas.CrearHotel: does not state that every hotel stays within its capacity. That follows from the contract: only the hotel list and the hotels file change, and the new hotel has no reservations, so it is within capacity whenever its number of rooms is not negative.
- Reservations.SistemaReservas.CancelarReserva: states the capacity invariant only for the hotel whose reservation list may change. The other hotels are outside the method's frame and do not change.
- Reservations.SistemaReservas.ModificarHotel: states no capacity invariant, because the source does not keep one there. A smaller number of rooms is accepted even below the reservations held.
- The capacity is any integer, as in the code. Nothing enforces that it is non-negative, and the model adds no such requirement.
- The `to_dict` methods have no contract of their own. What they produce is stated through the `FromDict` round trips and the `HotelesDict`, `ClientesDict` and `ReservasDict` rows.
- The test suite and any user interface around the manager are not part of this model.
