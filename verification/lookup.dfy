/** The linear scans of the manager: first match by natural key (hotel name,
    customer email, or a reservation's customer email and date), and removal
    of every record with a key. */
module Lookup {
  import opened Sequences
  import opened Domain

  /** Position of the first hotel named `nombre`, or -1 when there is none. */
  function PrimerHotel(hs: seq<Hotel>, nombre: string): (i: int)
    ensures -1 <= i < |hs|
    ensures i == -1 <==> forall j :: 0 <= j < |hs| ==> hs[j].nombre != nombre
    ensures 0 <= i ==> hs[i].nombre == nombre && forall j :: 0 <= j < i ==> hs[j].nombre != nombre
  {
    PrimerHotelDesde(hs, nombre, 0)
  }

  /** The same scan started at position `desde`. */
  function PrimerHotelDesde(hs: seq<Hotel>, nombre: string, desde: nat): (i: int)
    requires desde <= |hs|
    ensures -1 <= i < |hs|
    ensures i == -1 <==> forall j :: desde <= j < |hs| ==> hs[j].nombre != nombre
    ensures 0 <= i ==> desde <= i && hs[i].nombre == nombre && forall j :: desde <= j < i ==> hs[j].nombre != nombre
    decreases |hs| - desde
  {
    if desde == |hs| then -1
    else if hs[desde].nombre == nombre then desde
    else PrimerHotelDesde(hs, nombre, desde + 1)
  }


  /** Position of the first customer with this email, or -1 when there is none. */
  function PrimerCliente(cs: seq<Cliente>, email: string): (i: int)
    ensures -1 <= i < |cs|
    ensures i == -1 <==> forall j :: 0 <= j < |cs| ==> cs[j].email != email
    ensures 0 <= i ==> cs[i].email == email && forall j :: 0 <= j < i ==> cs[j].email != email
  {
    PrimerClienteDesde(cs, email, 0)
  }

  /** The same scan started at position `desde`. */
  function PrimerClienteDesde(cs: seq<Cliente>, email: string, desde: nat): (i: int)
    requires desde <= |cs|
    ensures -1 <= i < |cs|
    ensures i == -1 <==> forall j :: desde <= j < |cs| ==> cs[j].email != email
    ensures 0 <= i ==> desde <= i && cs[i].email == email && forall j :: desde <= j < i ==> cs[j].email != email
    decreases |cs| - desde
  {
    if desde == |cs| then -1
    else if cs[desde].email == email then desde
    else PrimerClienteDesde(cs, email, desde + 1)
  }


  /** Position of the first reservation of the customer with this email on
      this date, or -1 when there is none. */
  function PrimeraReserva(rs: seq<Reserva>, email: string, fecha: string): (i: int)
    ensures -1 <= i < |rs|
    ensures i == -1 <==> forall j :: 0 <= j < |rs| ==> !(rs[j].cliente.email == email && rs[j].fecha == fecha)
    ensures 0 <= i ==>
      rs[i].cliente.email == email && rs[i].fecha == fecha &&
      forall j :: 0 <= j < i ==> !(rs[j].cliente.email == email && rs[j].fecha == fecha)
  {
    PrimeraReservaDesde(rs, email, fecha, 0)
  }

  /** The same scan started at position `desde`. */
  function PrimeraReservaDesde(rs: seq<Reserva>, email: string, fecha: string, desde: nat): (i: int)
    requires desde <= |rs|
    ensures -1 <= i < |rs|
    ensures i == -1 <==>
      forall j :: desde <= j < |rs| ==> !(rs[j].cliente.email == email && rs[j].fecha == fecha)
    ensures 0 <= i ==>
      desde <= i && rs[i].cliente.email == email && rs[i].fecha == fecha &&
      forall j :: desde <= j < i ==> !(rs[j].cliente.email == email && rs[j].fecha == fecha)
    decreases |rs| - desde
  {
    if desde == |rs| then -1
    else if rs[desde].cliente.email == email && rs[desde].fecha == fecha then desde
    else PrimeraReservaDesde(rs, email, fecha, desde + 1)
  }


  /** The hotels not named `nombre`, in their original order. */
  function SinHotel(hs: seq<Hotel>, nombre: string): (r: seq<Hotel>)
    ensures |r| <= |hs|
    ensures forall j :: 0 <= j < |r| ==> r[j] in hs && r[j].nombre != nombre
    ensures forall j :: 0 <= j < |hs| && hs[j].nombre != nombre ==> hs[j] in r
    decreases |hs|
  {
    if |hs| == 0 then []
    else if hs[0].nombre == nombre then SinHotel(hs[1..], nombre)
    else [hs[0]] + SinHotel(hs[1..], nombre)
  }

  /** The customers whose email is not `email`, in their original order. */
  function SinCliente(cs: seq<Cliente>, email: string): (r: seq<Cliente>)
    ensures |r| <= |cs|
    ensures forall j :: 0 <= j < |r| ==> r[j] in cs && r[j].email != email
    ensures forall j :: 0 <= j < |cs| && cs[j].email != email ==> cs[j] in r
    decreases |cs|
  {
    if |cs| == 0 then []
    else if cs[0].email == email then SinCliente(cs[1..], email)
    else [cs[0]] + SinCliente(cs[1..], email)
  }

  /** Appending a hotel: an earlier hotel with the name still wins; otherwise
      the new one is found exactly when it has the name. */
  lemma {:induction false} PrimerHotelAppend(hs: seq<Hotel>, h: Hotel, nombre: string)
    ensures PrimerHotel(hs + [h], nombre) ==
      if 0 <= PrimerHotel(hs, nombre) then PrimerHotel(hs, nombre)
      else if h.nombre == nombre then |hs|
      else -1
    decreases |hs|
  {
    if |hs| > 0 {
      assert (hs + [h])[1..] == hs[1..] + [h];
      PrimerHotelAppend(hs[1..], h, nombre);
    }
  }

  /** Appending a customer: an earlier customer with the email still wins;
      otherwise the new one is found exactly when it has the email. */
  lemma {:induction false} PrimerClienteAppend(cs: seq<Cliente>, c: Cliente, email: string)
    ensures PrimerCliente(cs + [c], email) ==
      if 0 <= PrimerCliente(cs, email) then PrimerCliente(cs, email)
      else if c.email == email then |cs|
      else -1
    decreases |cs|
  {
    if |cs| > 0 {
      assert (cs + [c])[1..] == cs[1..] + [c];
      PrimerClienteAppend(cs[1..], c, email);
    }
  }

  /** Removing by name distributes over concatenation: the kept hotels stay
      in their original relative order. */
  lemma {:induction false} SinHotelAppend(a: seq<Hotel>, b: seq<Hotel>, nombre: string)
    ensures SinHotel(a + b, nombre) == SinHotel(a, nombre) + SinHotel(b, nombre)
    decreases |a|
  {
    if |a| == 0 {
      assert a + b == b;
    } else {
      assert (a + b)[1..] == a[1..] + b;
      SinHotelAppend(a[1..], b, nombre);
    }
  }

  /** Removing by email distributes over concatenation: the kept customers
      stay in their original relative order. */
  lemma {:induction false} SinClienteAppend(a: seq<Cliente>, b: seq<Cliente>, email: string)
    ensures SinCliente(a + b, email) == SinCliente(a, email) + SinCliente(b, email)
    decreases |a|
  {
    if |a| == 0 {
      assert a + b == b;
    } else {
      assert (a + b)[1..] == a[1..] + b;
      SinClienteAppend(a[1..], b, email);
    }
  }

  /** Removing a name no hotel has changes nothing. */
  lemma {:induction false} SinHotelAusente(hs: seq<Hotel>, nombre: string)
    requires PrimerHotel(hs, nombre) == -1
    ensures SinHotel(hs, nombre) == hs
    decreases |hs|
  {
    if |hs| > 0 {
      assert PrimerHotel(hs[1..], nombre) == -1 by {
        forall j | 0 <= j < |hs[1..]| ensures hs[1..][j].nombre != nombre {
          assert hs[1..][j] == hs[j + 1];
        }
      }
      SinHotelAusente(hs[1..], nombre);
      assert hs == [hs[0]] + hs[1..];
    }
  }

  /** Removing an email no customer has changes nothing. */
  lemma {:induction false} SinClienteAusente(cs: seq<Cliente>, email: string)
    requires PrimerCliente(cs, email) == -1
    ensures SinCliente(cs, email) == cs
    decreases |cs|
  {
    if |cs| > 0 {
      assert PrimerCliente(cs[1..], email) == -1 by {
        forall j | 0 <= j < |cs[1..]| ensures cs[1..][j].email != email {
          assert cs[1..][j] == cs[j + 1];
        }
      }
      SinClienteAusente(cs[1..], email);
      assert cs == [cs[0]] + cs[1..];
    }
  }

  /** The reservation found by the email-and-date scan is its own first
      occurrence, so removing the first occurrence of that object removes
      exactly the scanned position and no other. */
  lemma PrimeraReservaSeQuita(rs: seq<Reserva>, email: string, fecha: string)
    requires 0 <= PrimeraReserva(rs, email, fecha)
    ensures IndexOf(rs, rs[PrimeraReserva(rs, email, fecha)]) == PrimeraReserva(rs, email, fecha)
  {
  }
}
