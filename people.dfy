/** The example records the tests build lenses for: a person with a name and
    an age, and a company with an employer (LTests/Person.swift,
    Test/Company.swift). */
module People {
  import opened Lenses
  import opened Composition

  datatype Person = Person(name: string, age: int)

  datatype Company = Company(employer: Person)

  /** The person's name; writing a new name keeps the age. */
  function NameLens(): (r: Lens<Person, string>)
    ensures forall p: Person :: r.get(p) == p.name
    ensures forall n: string, p: Person :: r.put(n, p).name == n && r.put(n, p).age == p.age
  {
    LLens((p: Person) => p.name, (n: string, p: Person) => Person(n, p.age))
  }

  /** The company's employer; writing a new employer replaces it whole. */
  function EmployerLens(): (r: Lens<Company, Person>)
    ensures forall c: Company :: r.get(c) == c.employer
    ensures forall p: Person, c: Company :: r.put(p, c).employer == p
  {
    LLens((c: Company) => c.employer, (p: Person, _: Company) => Company(p))
  }

  /** The employer's name, through the composite of the two lenses. */
  function EmployerNameLens(): (r: Lens<Company, string>)
    ensures forall c: Company :: r.get(c) == c.employer.name
    ensures forall n: string, c: Company :: r.put(n, c).employer == Person(n, c.employer.age)
  {
    ComposeLenses(EmployerLens(), NameLens())
  }

  /** Both example lenses are lawful, and so is their composite. */
  lemma {:induction false} ExampleLensesLawful()
    ensures LensLaws(NameLens())
    ensures LensLaws(EmployerLens())
    ensures LensLaws(EmployerNameLens())
  {
    assert LensLaws(NameLens());
    assert LensLaws(EmployerLens());
    ComposeLensesLawful(EmployerLens(), NameLens());
  }

  /** Renaming the employer through the composite: the name read before is
      the old one, the name read after is the one written, and the age stays. */
  lemma RenameEmployer()
    ensures EmployerNameLens().get(Company(Person("Steve Jobs", 19))) == "Steve Jobs"
    ensures EmployerNameLens().get(EmployerNameLens().put("John Sculley", Company(Person("Steve Jobs", 19)))) == "John Sculley"
    ensures EmployerNameLens().put("John Sculley", Company(Person("Steve Jobs", 19))).employer.age == 19
  {
  }
}
