/** SHA-256 (section 6.2 of FIPS 180-4) seen from outside: some function from text to 64 lower-case
    hex digits. Nothing is assumed about collisions. Where the program relies on a root or a
    fingerprint to identify its input, the theorems conclude that the inputs agree or that two
    different texts, both really hashed by the two computations, have the same digest. */
module Hashing {

  predicate IsHex(c: char) {
    '0' <= c <= '9' || 'a' <= c <= 'f'
  }

  type Digest = s: string | |s| == 64 && forall i :: 0 <= i < |s| ==> IsHex(s[i])
    witness seq(64, _ => '0')

  type HashFn = string -> Digest

  /** Two different texts, one from each set, with the same digest. */
  ghost predicate Collision(h: HashFn, xs: set<string>, ys: set<string>) {
    exists x, y :: x in xs && y in ys && x != y && h(x) == h(y)
  }

  lemma CollisionMonotone(h: HashFn, xs: set<string>, ys: set<string>, xs': set<string>, ys': set<string>)
    requires Collision(h, xs, ys) && xs <= xs' && ys <= ys'
    ensures Collision(h, xs', ys')
  {
    var x, y :| x in xs && y in ys && x != y && h(x) == h(y);
    assert x in xs' && y in ys';
  }
}
