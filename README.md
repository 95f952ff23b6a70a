# openmm_systems test systems, modelled in Dafny

A test system in openmm_systems bundles three things:

- an OpenMM `System`: its particles and their forces;
- the particle positions;
- an OpenMM `Topology`: chains of residues of atoms.

The `TestSystem` base class also does four other things:

- It keeps a lazily built mdtraj view of the topology. Replacing the topology drops that view.
- It finds the analytical properties of a system from its `get_` members.
- It computes the reduced potential expectation.
- It serialises the System and a State of the positions to XML.

`LennardJonesPair` is a test system with two uncharged argon particles. They interact through one no-cutoff nonbonded force. The second particle starts on the x axis at 2^(1/6)·sigma, where the Lennard-Jones potential is lowest.

The project has three modules:

- `OpenMM` (`openmm.dfy`) holds value records for the parts of OpenMM the test systems build:
  - `System` and `Force` (including `NonbondedForce`);
  - `Topology` with `Chain`, `Residue`, `Atom` and `Element`;
  - `State` and `Vec3`.

  Each builder call (`addParticle`, `addForce`, `addChain`, …) is a function that returns the extended record.
- `TestSystems` (`test_system.dfy`) holds the `TestSystem` class.
  - Its fields are `system`, `positions`, `topology` and the cache `mdtrajTopology`, each as an `Option`. For the first three, `None` means the Python attribute was deleted. For the cache, `None` is the Python value `None` of an empty cache; that attribute is never deleted.
  - The property getters, setters and deleters are functions and methods. Reading or deleting a deleted field is an `AttributeError` result.
  - `analytical_properties` and `reduced_potential_expectation` are modelled too.
- `LennardJones` (`lennard_jones.dfy`) holds the `LennardJonesPair` class and the Lennard-Jones potential, with the proof that the pair starts at the potential's minimum.

## Model

| member | source | states |
|---|---|---|
| TestSystems.TestSystem.constructor | src/openmm_systems/test_systems/base.py:55-64 | A new test system has a System with no particles and no forces, a positions array with zero rows (present, not deleted), an empty topology and an empty mdtraj cache |
| TestSystems.TestSystem.GetSystem | src/openmm_systems/test_systems/base.py:68-71 | Reading `system` succeeds exactly when the attribute exists and returns the stored System; otherwise it is `AttributeError: '<name>' object has no attribute '_system'` |
| TestSystems.TestSystem.SetSystem | src/openmm_systems/test_systems/base.py:73-75 | Assigning `system` makes the next read return the new value; positions, topology and the mdtraj cache are unchanged |
| TestSystems.TestSystem.DeleteSystem | src/openmm_systems/test_systems/base.py:77-79 | Deleting `system` succeeds exactly when it exists; deleting it again is an AttributeError whose message is the bare name `_system`; afterwards reading it is an AttributeError; nothing else changes |
| TestSystems.TestSystem.GetPositions | src/openmm_systems/test_systems/base.py:81-84 | Reading `positions` succeeds exactly when the attribute exists and returns the stored rows; otherwise AttributeError on `_positions` |
| TestSystems.TestSystem.SetPositions | src/openmm_systems/test_systems/base.py:86-88 | Assigning `positions` makes the next read return the new value; system, topology and the mdtraj cache are unchanged |
| TestSystems.TestSystem.DeletePositions | src/openmm_systems/test_systems/base.py:90-92 | Deleting `positions` succeeds exactly when it exists; deleting it again is an AttributeError whose message is the bare name `_positions`; afterwards reading it is an AttributeError; nothing else changes |
| TestSystems.TestSystem.GetTopology | src/openmm_systems/test_systems/base.py:94-97 | Reading `topology` succeeds exactly when the attribute exists and returns the stored Topology; otherwise AttributeError on `_topology` |
| TestSystems.TestSystem.SetTopology | src/openmm_systems/test_systems/base.py:99-102 | Assigning `topology` stores the new value and empties the mdtraj cache; system and positions are unchanged; the cache stays consistent with the topology |
| TestSystems.TestSystem.DeleteTopology | src/openmm_systems/test_systems/base.py:104-106 | Deleting `topology` succeeds exactly when it exists (otherwise an AttributeError whose message is the bare name `_topology`), and leaves the cached mdtraj view in place |
| TestSystems.TestSystem.MdtrajTopology | src/openmm_systems/test_systems/base.py:108-114 | With a filled cache, returns it without rebuilding. With an empty cache, converts the current topology, stores it and returns it; with no topology, AttributeError and the cache stays empty. A returned view is the conversion of the current topology whenever one is present; after the topology is deleted, the previously cached view is returned |
| TestSystems.ReplaceTopologyThenView | src/openmm_systems/test_systems/base.py:99-114 | After a topology assignment, the next mdtraj view is the conversion of the new topology, whatever was cached before |
| TestSystems.AnalyticalProperties | src/openmm_systems/test_systems/base.py:116-119 | The result is never longer than the member list, and every name in it has a `get_` member |
| TestSystems.AnalyticalPropertyIffGetter | src/openmm_systems/test_systems/base.py:119 | A name is an analytical property if and only if `get_` + name is a member |
| TestSystems.AnalyticalPropertiesOfConcat | src/openmm_systems/test_systems/base.py:119 | The properties of a concatenated member list are the properties of each part, in order: the list comprehension keeps the input order |
| TestSystems.AnalyticalPropertiesOfOne | src/openmm_systems/test_systems/base.py:119 | One member gives its name without the first four characters when it starts with `get_`, and nothing otherwise, names shorter than four characters included |
| TestSystems.ReducedPotentialExpectation | src/openmm_systems/test_systems/base.py:121-136 | Fails with the AttributeError message exactly when `get_potential_expectation` is absent. When it is present and T is 0, fails with ZeroDivisionError. Otherwise the result times kB·T of the evaluation state equals U of the sampling state |
| TestSystems.NoReducedPotentialWithoutProperty | src/openmm_systems/test_systems/base.py:116-136 | A system without the `potential_expectation` analytical property always gets the AttributeError from `reduced_potential_expectation` |
| TestSystems.TestSystem.Serialize | src/openmm_systems/test_systems/base.py:138-170 | On success the first part is the System's XML, and the state part is None exactly when the System has no particles. Otherwise the state part is the XML of a State of the current positions. A deleted system is an AttributeError. When the System has particles, deleted positions are an AttributeError and a position count that differs from the particle count is the OpenMMException. A System with no particles never reads its positions. No field changes |
| TestSystems.SerializeTwice | src/openmm_systems/test_systems/base.py:138-170 | Serialising twice gives the same result, because serialisation changes no state; a system with no particles serialises without a state part |
| LennardJones.LennardJonesPair.constructor | src/openmm_systems/test_systems/lennard_jones.py:44-94 | Full state after construction: name "LennardJonesPair"; mass, sigma and epsilon stored unchanged (defaults 39.9, 3.35, 10.0). The System has two particles of that mass and one NoCutoff nonbonded force with two uncharged (sigma, epsilon) entries. The sixth root of two it was given and the separation 2^(1/6)·sigma are kept. Positions are the origin and (separation, 0, 0), one row per particle. Ligand indices are [0], receptor indices [1]. The topology is one chain of two "Ar" residues of one "Ar" atom each, and the mdtraj cache is empty |
| LennardJones.PairSystem | src/openmm_systems/test_systems/lennard_jones.py:53-77 | The built System has exactly two particles of the given mass and one NoCutoff nonbonded force with two entries of charge 0 and the given sigma and epsilon |
| LennardJones.PairPositions | src/openmm_systems/test_systems/lennard_jones.py:63-66 | The 2 x 3 positions array has an all-zero row 0, and row 1 is the given separation on the x axis |
| LennardJones.PairTopology | src/openmm_systems/test_systems/lennard_jones.py:86-93 | The topology is one chain holding, in order, two residues named "Ar", each with one "Ar" atom of element Ar |
| LennardJones.PotentialAtMinimum | src/openmm_systems/test_systems/lennard_jones.py:65-66 | At separation 2^(1/6)·sigma the pair potential 4ε((σ/d)^12 − (σ/d)^6) equals −ε |
| LennardJones.PotentialBoundedBelow | src/openmm_systems/test_systems/lennard_jones.py:135 | For ε ≥ 0 the potential 4ε(x^-12 − x^-6), which is u(x)·kT, is at least −ε at every non-zero separation |
| LennardJones.LennardJonesPair.StartsAtPotentialMinimum | src/openmm_systems/test_systems/lennard_jones.py:65-66 | For σ ≠ 0 and ε ≥ 0, the pair's stored initial separation (2^(1/6)·σ, the x coordinate of particle 1) is a global minimum of its potential: energy −ε there, and no separation gives less. With ε < 0 the constructor still builds the pair, but the separation is then a maximum |
| LennardJones.LennardJonesPair.PairAnalyticalProperties | src/openmm_systems/test_systems/base.py:119 | The pair's analytical properties, computed from its member names, are exactly `["binding_free_energy"]`, from its one getter `get_binding_free_energy` |
| LennardJones.LennardJonesPair.PairHasNoReducedPotential | src/openmm_systems/test_systems/base.py:131-136 | The pair has no `get_potential_expectation`, so its reduced potential expectation is always the AttributeError |
| TestSystems.OneGetterAmong | src/openmm_systems/test_systems/base.py:119 | A member list with one `get_` name and no other getter has exactly that getter's stripped name as its analytical properties |
| LennardJones.SerializeNewPair | src/openmm_systems/test_systems/lennard_jones.py:64-80 | A newly built pair, for any mass, sigma and epsilon, serialises completely: the System XML is that of its two-particle System with the one nonbonded force, and because particle and position counts agree the State XML of its two positions is produced |

## Left out

- `get_binding_free_energy` (lennard_jones.py:96-161) and its integrands: adaptive quadrature, `exp`, `log` and `pi` over floating point, plus unit conversion. Only the potential inside `integrand_numpy` is modelled, as `Potential`.
- `integrand_openmm`: it drives OpenMM energy evaluation in a loop, which is engine behaviour.
- OpenMM and mdtraj internals:
  - The `System`, `NonbondedForce` and `Topology` records keep only what the test systems build.
  - `XmlSerializer.serialize` is the function parameters of `Serialize`.
  - `mdtraj.Topology.from_openmm` is the `fromOpenMM` function fixed for each object.
  - `Context`, `Platform` and `VerletIntegrator` are left out. Only the Context's check that the position count matches the particle count is kept, as `OpenMMException`.
- Python versions: deleting an attribute that is already gone gives the bare-name AttributeError message of Python 3.6 to 3.8, the versions the project's noxfile.py targets. Python 3.11 and later use the long form that reads already use.
- Units and precision: `simtk.unit` quantities are plain reals. The float32 storage of the positions is not modelled, so row 1 holds 2^(1/6)·sigma exactly.
- `dir(self)` and `hasattr` reflection: the member names are a parameter `members`, and `hasattr(self, n)` is `n in members`. For the pair they are the constant `LennardJones.PairMembers`, written out by hand without the double-underscore members every Python object has.
- kB is imported from code that is not part of this model. `KB` is the molar Boltzmann constant in kJ/(mol K).
- Inheritance: `LennardJonesPair` holds its `TestSystem` as `base`. The `name` property is a constant field set to the concrete class name by the subclass constructor. The `**kwargs` of both constructors are ignored, as the code ignores them.
- Aliasing: the System, positions and Topology are values. Mutating an object after storing it, which Python shares with the caller, is not captured.
- `LennardJones.LennardJonesPair.constructor`: 2^(1/6) is a parameter `sixthRootOfTwo` that must be positive with sixth power 2, because Dafny has no real root function.
- `LennardJones.LennardJonesPair.StartsAtPotentialMinimum`: proves that the initial separation is a global minimum, not that it is the only one.
- The class docstring gives an epsilon default of 1.0 kcal/mol and calls epsilon a "sigma parameter". The code's default of 10.0 kcal/mol is modelled.
- setup.py, noxfile.py and tasks/config.py are packaging and configuration. `LysozymeImplicit` is not part of this model.
