/** The collaborators whose behaviour the core only consumes: the MD5
    digest, the first draw of Python's and NumPy's seeded generators, the
    JSON codec, `repr` and `%.2f` formatting, and the optional PyYAML and
    Jinja2 packages. They are passed in as one value, so every operation
    that uses them is a function of its inputs.
 */
module Oracles {
  import opened Wrappers
  import opened Json

  /** A draw from `[0, 1)`, as `random()` produces. */
  type UnitReal = r: real | 0.0 <= r < 1.0 witness 0.0

  datatype Oracles = Oracles(
    /** `int(hashlib.md5(s.encode()).hexdigest(), 16)`. */
    md5: string -> nat,
    /** The first `random()` of `random.Random(seed)`. */
    pyRandom: nat -> UnitReal,
    /** The first `random()` of `numpy.random.default_rng(seed)`. */
    npRandom: nat -> UnitReal,
    /** `json.loads`; `None` is a `JSONDecodeError`. */
    loads: string -> Option<Json>,
    /** `json.dumps(v, indent=2)`. */
    dumps: Json -> string,
    /** `repr(v)` for floats, lists and dicts. */
    repr: Json -> string,
    /** `f"{x:.2f}"`. */
    fmt2: real -> string,
    /** `yaml.safe_load` when PyYAML is installed. */
    pyYaml: Option<string -> Result<Json>>,
    /** `jinja2.Environment().from_string(t).render(**vars)` when Jinja2 is installed. */
    jinja: Option<(string, map<string, Json>) -> Result<string>>)
}
