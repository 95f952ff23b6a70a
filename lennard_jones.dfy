/** A pair of Lennard-Jones particles: two identical uncharged particles with a
    single nonbonded interaction and no cutoff, placed at the separation where
    the Lennard-Jones potential has its minimum. */
module LennardJones {
  import opened OpenMM
  import opened TestSystems

  /** Default mass of each particle, in amu. */
  const DefaultMass: real := 39.9
  /** Default Lennard-Jones sigma, in angstrom. */
  const DefaultSigma: real := 3.35
  /** Default Lennard-Jones well depth, in kcal/mol. */
  const DefaultEpsilon: real := 10.0

  /** The member names of a LennardJonesPair, in the sorted order `dir` lists
      them: its own, those of TestSystem, and its instance attributes.  The
      double-underscore members every Python object has are left out; none of
      them starts with `get_`.  The list is written in three parts: the names
      sorted before the pair's one getter, the getter, and the names after it. */
  const PairMembers: seq<string> := MembersBeforeGetter + ["get_binding_free_energy"] + MembersAfterGetter

  const MembersBeforeGetter: seq<string> :=
    ["_mdtraj_topology", "_positions", "_system", "_topology", "analytical_properties", "epsilon"]

  const MembersAfterGetter: seq<string> :=
    ["ligand_indices", "mass", "mdtraj_topology", "name", "positions", "receptor_indices",
     "reduced_potential_expectation", "serialize", "sigma", "system", "topology"]

  /** Argon, the element of both atoms of the pair. */
  const Argon: Element := Element("Ar")

  /** x raised to the power n. */
  function Pow(x: real, n: nat): real
  {
    if n == 0 then 1.0 else x * Pow(x, n - 1)
  }

  /** The positive sixth root of two: the separation, in units of sigma, at
      which the Lennard-Jones potential has its minimum. */
  predicate IsSixthRootOfTwo(root: real)
  {
    root > 0.0 && Pow(root, 6) == 2.0
  }

  /** The shape of the Lennard-Jones potential as a function of s = (sigma/d)^6. */
  function Shape(s: real): real
  {
    s * s - s
  }

  /** The Lennard-Jones pair potential 4 epsilon ((sigma/d)^12 - (sigma/d)^6)
      at separation d; at d = x sigma it is `u(x) kT`, the energy the pair's
      free-energy integrand divides by kT. */
  function Potential(sigma: real, epsilon: real, d: real): real
    requires d != 0.0
  {
    4.0 * epsilon * Shape(Pow(sigma / d, 6))
  }

  lemma {:induction false} PowOfProduct(a: real, b: real, n: nat)
    ensures Pow(a * b, n) == Pow(a, n) * Pow(b, n)
  {
    if n > 0 {
      PowOfProduct(a, b, n - 1);
      var pa, pb := Pow(a, n - 1), Pow(b, n - 1);
      assert (a * b) * (pa * pb) == (a * pa) * (b * pb);
    }
  }

  lemma {:induction false} PowOfOne(n: nat)
    ensures Pow(1.0, n) == 1.0
  {
    if n > 0 {
      PowOfOne(n - 1);
    }
  }

  lemma Reciprocal(p: real, q: real)
    requires p * q == 1.0
    ensures q != 0.0 && p == 1.0 / q
  {
  }

  lemma PowOfReciprocal(x: real, n: nat)
    requires x != 0.0
    ensures Pow(x, n) != 0.0 && Pow(1.0 / x, n) == 1.0 / Pow(x, n)
  {
    var r := 1.0 / x;
    assert r * x == 1.0;
    PowOfProduct(r, x, n);
    PowOfOne(n);
    Reciprocal(Pow(r, n), Pow(x, n));
  }

  lemma ShapeAtLeast(s: real)
    ensures Shape(s) >= -0.25
  {
  }

  lemma ScaleAtLeast(e: real, a: real)
    requires e >= 0.0 && a >= -0.25
    ensures 4.0 * e * a >= -e
  {
  }

  /** At separation 2^(1/6) sigma the potential takes the value -epsilon. */
  lemma PotentialAtMinimum(root: real, sigma: real, epsilon: real)
    requires IsSixthRootOfTwo(root) && sigma != 0.0
    ensures Potential(sigma, epsilon, root * sigma) == -epsilon
  {
    assert sigma / (root * sigma) == 1.0 / root;
    PowOfReciprocal(root, 6);
    assert Pow(sigma / (root * sigma), 6) == 0.5;
  }

  /** With a non-negative well depth the potential never drops below -epsilon. */
  lemma PotentialBoundedBelow(sigma: real, epsilon: real, d: real)
    requires epsilon >= 0.0 && d != 0.0
    ensures Potential(sigma, epsilon, d) >= -epsilon
  {
    var s := Pow(sigma / d, 6);
    ShapeAtLeast(s);
    ScaleAtLeast(epsilon, Shape(s));
  }

  /** The pair's System: two particles of the given mass and one nonbonded
      force without cutoff in which both are uncharged with the given sigma
      and epsilon. */
  method PairSystem(mass: real, sigma: real, epsilon: real) returns (system: System)
    ensures system.NumParticles() == 2 && system.masses == [mass, mass]
    ensures system.forces ==
              [NonbondedForce(NoCutoff, [NonbondedParticle(0.0, sigma, epsilon), NonbondedParticle(0.0, sigma, epsilon)])]
  {
    var charge := 0.0;
    system := NewSystem();
    var force := NewNonbondedForce();
    force := SetNonbondedMethod(force, NoCutoff);
    system := system.AddParticle(mass);
    force := AddNonbondedParticle(force, charge, sigma, epsilon);
    system := system.AddParticle(mass);
    force := AddNonbondedParticle(force, charge, sigma, epsilon);
    assert force == NonbondedForce(NoCutoff, [NonbondedParticle(charge, sigma, epsilon), NonbondedParticle(charge, sigma, epsilon)]);
    system := system.AddForce(force);
  }

  /** The pair's initial positions: a zeroed 2 x 3 array whose second row is
      moved `separation` along the x axis. */
  method PairPositions(separation: real) returns (positions: seq<Vec3>)
    ensures positions == [Vec3(0.0, 0.0, 0.0), Vec3(separation, 0.0, 0.0)]
  {
    var a := new real[2, 3]((i, j) => 0.0);
    a[1, 0] := separation;
    positions := PositionsOf(a);
    assert positions[0] == Vec3(0.0, 0.0, 0.0) && positions[1] == Vec3(separation, 0.0, 0.0);
  }

  /** The pair's topology: one chain holding two argon residues of one argon atom each. */
  method PairTopology() returns (topology: Topology)
    ensures topology == Topology([Chain([Residue("Ar", [Atom("Ar", Argon)]),
                                         Residue("Ar", [Atom("Ar", Argon)])])])
  {
    topology := NewTopology();
    var added := topology.AddChain();
    var chain := added.1;
    topology := added.0;
    assert topology == Topology([Chain([])]) && chain == 0;
    var ar := Residue("Ar", [Atom("Ar", Argon)]);
    added := topology.AddResidue("Ar", chain);
    assert [] + [Residue("Ar", [])] == [Residue("Ar", [])];
    assert added.0.chains == [Chain([Residue("Ar", [])])] && added.1 == 0;
    topology := added.0.AddAtom("Ar", Argon, chain, added.1);
    assert [] + [Atom("Ar", Argon)] == [Atom("Ar", Argon)];
    assert [Residue("Ar", [])][0 := ar] == [ar];
    assert topology.chains == [Chain([ar])];
    added := topology.AddResidue("Ar", chain);
    assert [ar] + [Residue("Ar", [])] == [ar, Residue("Ar", [])];
    assert added.0.chains == [Chain([ar, Residue("Ar", [])])] && added.1 == 1;
    topology := added.0.AddAtom("Ar", Argon, chain, added.1);
    assert [ar, Residue("Ar", [])][1 := ar] == [ar, ar];
    assert topology.chains == [Chain([ar, ar])];
  }

  /** A Lennard-Jones pair test system.  `base` holds the system, positions and
      topology shared with every test system; the pair adds its parameters and
      the ligand and receptor particle indices. */
  class LennardJonesPair<MdTop> {
    const base: TestSystem<MdTop>
    const mass: real
    const sigma: real
    const epsilon: real
    const ligandIndices: seq<nat>
    const receptorIndices: seq<nat>
    /** The value of 2^(1/6) the pair was built with, and the initial distance
        of particle 1 from particle 0. */
    const sixthRootOfTwo: real
    const separation: real
    /** The names `dir` lists for a newly built pair; a deleter removes
        `_system`, `_positions` or `_topology` from what `dir` lists. */
    const members: seq<string> := PairMembers

    /** The initial separation is 2^(1/6) sigma. */
    predicate Valid()
    {
      IsSixthRootOfTwo(sixthRootOfTwo) && separation == sixthRootOfTwo * sigma
    }

    /** Builds the pair.  `sixthRootOfTwo` is the value of 2^(1/6). */
    constructor (sixthRootOfTwo: real, fromOpenMM: Topology -> MdTop,
                 mass: real := DefaultMass, sigma: real := DefaultSigma, epsilon: real := DefaultEpsilon)
      requires IsSixthRootOfTwo(sixthRootOfTwo)
      ensures fresh(base) && base.Valid()
      ensures base.name == "LennardJonesPair" && base.fromOpenMM == fromOpenMM
      ensures Valid() && this.sixthRootOfTwo == sixthRootOfTwo
      ensures this.mass == mass && this.sigma == sigma && this.epsilon == epsilon
      // two particles of the given mass, and one uncharged no-cutoff nonbonded force over both
      ensures base.system.Some? && base.system.value.NumParticles() == 2
      ensures base.system.value.masses == [mass, mass]
      ensures base.system.value.forces ==
                [NonbondedForce(NoCutoff, [NonbondedParticle(0.0, sigma, epsilon), NonbondedParticle(0.0, sigma, epsilon)])]
      // particle 0 at the origin, particle 1 on the x axis at the potential minimum
      ensures base.positions == Some([Vec3(0.0, 0.0, 0.0), Vec3(separation, 0.0, 0.0)])
      ensures |base.positions.value| == base.system.value.NumParticles()
      ensures ligandIndices == [0] && receptorIndices == [1]
      // one chain of two argon residues, each holding one argon atom
      ensures base.topology == Some(Topology([Chain([Residue("Ar", [Atom("Ar", Argon)]),
                                                     Residue("Ar", [Atom("Ar", Argon)])])]))
      ensures base.mdtrajTopology == None
    {
      var ts := new TestSystem<MdTop>("LennardJonesPair", fromOpenMM);

      this.mass := mass;
      this.sigma := sigma;
      this.epsilon := epsilon;
      this.sixthRootOfTwo := sixthRootOfTwo;
      separation := sixthRootOfTwo * sigma;

      var system := PairSystem(mass, sigma, epsilon);
      var positions := PairPositions(sixthRootOfTwo * sigma);
      ts.SetSystem(system);
      ts.SetPositions(positions);

      ligandIndices := [0];
      receptorIndices := [1];

      var topology := PairTopology();
      ts.SetTopology(topology);

      base := ts;
    }

    /** The analytical property the pair provides is exactly its binding free
        energy. */
    lemma PairAnalyticalProperties()
      ensures AnalyticalProperties(members) == ["binding_free_energy"]
    {
      NotGettersByFirstLetter(MembersBeforeGetter);
      NotGettersByFirstLetter(MembersAfterGetter);
      OneGetterAmong(MembersBeforeGetter, "get_binding_free_energy", MembersAfterGetter);
    }

    /** The pair has no `get_potential_expectation`, so its reduced potential
        expectation is always the AttributeError. */
    lemma PairHasNoReducedPotential(potentialExpectation: ThermodynamicState -> real,
                                    sampledFrom: ThermodynamicState, evaluatedIn: ThermodynamicState)
      ensures ReducedPotentialExpectation(members, potentialExpectation, sampledFrom, evaluatedIn)
              == Err(AttributeError(NoPotentialExpectationMessage))
    {
      PairAnalyticalProperties();
      NoReducedPotentialWithoutProperty(members, potentialExpectation, sampledFrom, evaluatedIn);
    }

    /** Particle 1 starts where the pair potential is lowest: no separation
        gives a lower energy than the initial one. */
    lemma StartsAtPotentialMinimum(d: real)
      requires Valid() && sigma != 0.0 && epsilon >= 0.0 && d != 0.0
      ensures Potential(sigma, epsilon, separation) == -epsilon
      ensures Potential(sigma, epsilon, d) >= Potential(sigma, epsilon, separation)
    {
      PotentialAtMinimum(sixthRootOfTwo, sigma, epsilon);
      PotentialBoundedBelow(sigma, epsilon, d);
    }
  }

  /** A newly built pair serialises completely, whatever its parameters: its
      two particles match its two positions, so the result holds the XML of its
      System and the State XML of its two positions. */
  method SerializeNewPair<MdTop>(sixthRootOfTwo: real, fromOpenMM: Topology -> MdTop,
                                 mass: real, sigma: real, epsilon: real,
                                 serializeSystem: System -> string, serializeState: State -> string)
    returns (r: Result<(string, Option<string>)>)
    requires IsSixthRootOfTwo(sixthRootOfTwo)
    ensures r.Ok?
    ensures r.value.0 == serializeSystem(System([mass, mass],
              [NonbondedForce(NoCutoff, [NonbondedParticle(0.0, sigma, epsilon), NonbondedParticle(0.0, sigma, epsilon)])]))
    ensures r.value.1 == Some(serializeState(State([Vec3(0.0, 0.0, 0.0), Vec3(sixthRootOfTwo * sigma, 0.0, 0.0)])))
  {
    var pair := new LennardJonesPair<MdTop>(sixthRootOfTwo, fromOpenMM, mass, sigma, epsilon);
    assert pair.separation == sixthRootOfTwo * sigma;
    r := pair.base.Serialize(serializeSystem, serializeState);
  }
}
