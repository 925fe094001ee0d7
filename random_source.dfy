/** A library-backed random identifier generator (the Eaio UUID library or
    `java.util.UUID`), seen from outside: its k-th call returns `draws(k)`. */
module RandomSource {
  class RandomGenerator {
    /** What each call returns, by call number. */
    const draws: nat -> string
    /** How many identifiers have been handed out. */
    var calls: nat

    constructor (draws: nat -> string)
      ensures this.draws == draws && calls == 0
    {
      this.draws := draws;
      calls := 0;
    }

    /** `generateUuid` / `generateGuid`. */
    method Generate() returns (id: string)
      modifies this
      ensures id == draws(old(calls)) && calls == old(calls) + 1
    {
      id := draws(calls);
      calls := calls + 1;
    }
  }
}
