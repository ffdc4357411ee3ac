/** The account form record that the sign-in and sign-up form collects and
    hands to the login handlers. A field left blank is the empty string; in
    the original a missing field and an empty one are both falsy, so they are
    not told apart here. */
module Profile {

  datatype FormData = FormData(
    firstName: string,
    lastName: string,
    age: string,
    email: string,
    password: string)

  const EmptyForm := FormData("", "", "", "", "")

  /** The `name` attributes of the form's inputs. */
  datatype Field = FirstName | LastName | Age | Email | Password

  function Get(d: FormData, f: Field): string {
    match f
    case FirstName => d.firstName
    case LastName => d.lastName
    case Age => d.age
    case Email => d.email
    case Password => d.password
  }

  /** `{ ...formData, [name]: value }`: the named field takes the value and
      the other four are unchanged. */
  function SetField(d: FormData, f: Field, value: string): (r: FormData)
    ensures Get(r, f) == value
    ensures forall g :: g != f ==> Get(r, g) == Get(d, g)
  {
    match f
    case FirstName => d.(firstName := value)
    case LastName => d.(lastName := value)
    case Age => d.(age := value)
    case Email => d.(email := value)
    case Password => d.(password := value)
  }

  /** A record is determined by its five fields. */
  lemma FieldsDetermineRecord(a: FormData, b: FormData)
    requires forall f :: Get(a, f) == Get(b, f)
    ensures a == b
  {
    assert Get(a, FirstName) == Get(b, FirstName) && Get(a, LastName) == Get(b, LastName);
    assert Get(a, Age) == Get(b, Age) && Get(a, Email) == Get(b, Email);
    assert Get(a, Password) == Get(b, Password);
  }

  /** Typing into a field twice keeps only the last value; retyping the
      current value changes nothing. */
  lemma SetFieldLastWins(d: FormData, f: Field, v1: string, v2: string)
    ensures SetField(SetField(d, f, v1), f, v2) == SetField(d, f, v2)
    ensures SetField(d, f, Get(d, f)) == d
  {
    FieldsDetermineRecord(SetField(SetField(d, f, v1), f, v2), SetField(d, f, v2));
    FieldsDetermineRecord(SetField(d, f, Get(d, f)), d);
  }
}
