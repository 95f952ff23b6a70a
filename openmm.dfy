/** Abstract records for the parts of the OpenMM toolkit that the test systems
    build and hand around: a particle system with its forces, a chain/residue/atom
    topology, and a simulation state.  Only the structure the test systems
    create is kept; the engine's own behaviour (energies, integration, XML
    layout) is not modelled.  Lengths, masses, charges and energies are plain
    reals: units and single-precision storage are not modelled. */
module OpenMM {

  /** One row of a positions array: the x, y and z coordinates of a particle. */
  datatype Vec3 = Vec3(x: real, y: real, z: real)

  /** The interaction modes a NonbondedForce can be set to. */
  datatype NonbondedMethod = NoCutoff | CutoffNonPeriodic | CutoffPeriodic | Ewald | PME | LJPME

  /** The per-particle parameters of a NonbondedForce. */
  datatype NonbondedParticle = NonbondedParticle(charge: real, sigma: real, epsilon: real)

  /** A force of a System.  Forces other than NonbondedForce are kept only by
      their class name. */
  datatype Force =
    | NonbondedForce(nonbondedMethod: NonbondedMethod, particles: seq<NonbondedParticle>)
    | OtherForce(className: string)

  /** A freshly created NonbondedForce: no particles, and OpenMM's default mode NoCutoff. */
  function NewNonbondedForce(): Force
  {
    NonbondedForce(NoCutoff, [])
  }

  /** NonbondedForce.setNonbondedMethod */
  function SetNonbondedMethod(f: Force, m: NonbondedMethod): Force
    requires f.NonbondedForce?
  {
    f.(nonbondedMethod := m)
  }

  /** NonbondedForce.addParticle: appends one particle's parameters. */
  function AddNonbondedParticle(f: Force, charge: real, sigma: real, epsilon: real): Force
    requires f.NonbondedForce?
  {
    f.(particles := f.particles + [NonbondedParticle(charge, sigma, epsilon)])
  }

  /** An OpenMM System: one mass per particle and the list of forces. */
  datatype System = System(masses: seq<real>, forces: seq<Force>)
  {
    /** System.getNumParticles */
    function NumParticles(): nat
    {
      |masses|
    }

    /** System.addParticle: appends a particle of the given mass. */
    function AddParticle(mass: real): System
    {
      this.(masses := masses + [mass])
    }

    /** System.addForce: appends a force. */
    function AddForce(f: Force): System
    {
      this.(forces := forces + [f])
    }
  }

  /** openmm.System(): no particles and no forces. */
  function NewSystem(): System
  {
    System([], [])
  }

  /** A chemical element, identified by its symbol. */
  datatype Element = Element(symbol: string)

  datatype Atom = Atom(name: string, element: Element)

  datatype Residue = Residue(name: string, atoms: seq<Atom>)

  datatype Chain = Chain(residues: seq<Residue>)

  /** An OpenMM app.Topology: chains of residues of atoms, in insertion order.
      Chains and residues are referred to by their position. */
  datatype Topology = Topology(chains: seq<Chain>)
  {
    /** Topology.addChain: appends an empty chain and returns its index. */
    function AddChain(): (Topology, nat)
    {
      (Topology(chains + [Chain([])]), |chains|)
    }

    /** Topology.addResidue: appends an empty residue to the given chain and
        returns its index within that chain. */
    function AddResidue(name: string, chain: nat): (Topology, nat)
      requires chain < |chains|
    {
      var c := chains[chain];
      (Topology(chains[chain := Chain(c.residues + [Residue(name, [])])]), |c.residues|)
    }

    /** Topology.addAtom: appends an atom to the given residue of the given chain. */
    function AddAtom(name: string, element: Element, chain: nat, residue: nat): Topology
      requires chain < |chains| && residue < |chains[chain].residues|
    {
      var c := chains[chain];
      var r := c.residues[residue];
      var r' := r.(atoms := r.atoms + [Atom(name, element)]);
      Topology(chains[chain := Chain(c.residues[residue := r'])])
    }
  }

  /** app.Topology(): no chains. */
  function NewTopology(): Topology
  {
    Topology([])
  }

  /** The part of a simulation State that serialisation reads: the particle positions. */
  datatype State = State(positions: seq<Vec3>)

  /** The rows of an N x 3 positions array, one vector per particle. */
  function PositionsOf(a: array2<real>): seq<Vec3>
    requires a.Length1 == 3
    reads a
  {
    seq(a.Length0, i requires 0 <= i < a.Length0 reads a => Vec3(a[i, 0], a[i, 1], a[i, 2]))
  }
}
