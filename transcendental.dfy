/**
 * The floating-point library calls the relationships make (`pow` with a real
 * exponent, `numpy.exp`, `numpy.log`), left abstract. A relationship receives
 * them as a `Math` record; the few laws the proofs rely on are collected in
 * `Lawful`, and a lemma shows that some record satisfies all of them.
 */
module Transcendental {

  datatype Math = Math(pow: (real, real) -> real, exp: real -> real, log: real -> real)

  /** The laws of real exponentiation and the natural logarithm the proofs use. */
  ghost predicate Lawful(m: Math) {
    && (forall x: real :: m.pow(x, 0.0) == 1.0)
    && (forall y: real :: m.pow(1.0, y) == 1.0)
    && (forall x: real, y: real :: x >= 0.0 ==> m.pow(x, y) >= 0.0)
    && (forall x: real, y: real :: x > 0.0 ==> m.pow(x, y) > 0.0)
    && (forall y: real :: y > 0.0 ==> m.pow(0.0, y) == 0.0)
    && m.log(1.0) == 0.0
    && (forall x: real :: x > 1.0 ==> m.log(x) > 0.0)
  }

  /** The laws are consistent: lemmas that assume them are not vacuous. */
  lemma LawfulIsSatisfiable()
    ensures exists m: Math :: Lawful(m)
  {
    var pow := (x: real, y: real) =>
      if y == 0.0 || x == 1.0 then 1.0 else if x > 0.0 then x else 0.0;
    var m := Math(pow, (x: real) => x, (x: real) => x - 1.0);
    assert Lawful(m);
  }
}
