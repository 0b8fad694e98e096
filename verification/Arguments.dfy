/** The argument list of `docker-machine create` (pkg/controller/machine.go, aws.go, aws_region.go). */
module Arguments {
  import opened Wrappers
  import opened Cloud
  import opened Machines

  type Entries = multiset<(string, string)>

  function Flag(key: string): string { "--" + key }

  predicate IsFlag(s: string) { |s| >= 2 && s[0] == '-' && s[1] == '-' }

  /** A list of flag/value pairs. */
  predicate Paired(args: seq<string>) {
    args == [] || (|args| >= 2 && IsFlag(args[0]) && Paired(args[2..]))
  }

  /** Reads such a list back. */
  function Decode(args: seq<string>): Entries
    requires Paired(args)
  {
    if args == [] then multiset{} else multiset{(args[0][2..], args[1])} + Decode(args[2..])
  }

  ghost predicate Encodes(args: seq<string>, entries: Entries) {
    Paired(args) && Decode(args) == entries
  }

  lemma {:induction false} DecodeAppend(a: seq<string>, b: seq<string>)
    requires Paired(a) && Paired(b)
    ensures Encodes(a + b, Decode(a) + Decode(b))
  {
    if a == [] {
      assert a + b == b;
    } else {
      assert (a + b)[2..] == a[2..] + b;
      DecodeAppend(a[2..], b);
    }
  }

  lemma DecodeOne(key: string, value: string)
    ensures Encodes([Flag(key), value], multiset{(key, value)})
  {
    var args := [Flag(key), value];
    assert args[2..] == [];
    assert Flag(key)[2..] == key;
    assert Decode(args) == multiset{(key, value)} + Decode(args[2..]);
  }

  /** Appending one more pair. */
  lemma DecodePush(args: seq<string>, key: string, value: string)
    requires Paired(args)
    ensures Encodes(args + [Flag(key), value], Decode(args) + multiset{(key, value)})
  {
    DecodeOne(key, value);
    DecodeAppend(args, [Flag(key), value]);
  }

  /** The entries of a map, each once. */
  function EntriesOf(m: map<string, string>): Entries {
    multiset(set key | key in m :: (key, m[key]))
  }

  lemma EntriesStep(m: map<string, string>, rest: set<string>, key: string)
    requires key in rest && rest <= m.Keys
    ensures EntriesOf(m - rest) + multiset{(key, m[key])} == EntriesOf(m - (rest - {key}))
  {
    var before, after := m - rest, m - (rest - {key});
    assert after == before[key := m[key]];
    var s, t := (set x | x in before :: (x, before[x])), (set x | x in after :: (x, after[x]));
    assert key in after;
    forall x | x in before ensures (x, before[x]) in t {
      assert after[x] == before[x];
    }
    assert t == s + {(key, m[key])};
    assert (key, m[key]) !in s;
  }

  lemma EmptyEncodes()
    ensures Encodes([], EntriesOf(map[]))
  {}

  /** A Go loop over a map, in any order, appending "--key" and the value. */
  method PairArgs(m: map<string, string>) returns (args: seq<string>)
    ensures Encodes(args, EntriesOf(m))
  {
    args := [];
    var rest := m.Keys;
    assert m - rest == map[];
    while rest != {}
      invariant rest <= m.Keys
      invariant Encodes(args, EntriesOf(m - rest))
      decreases |rest|
    {
      var key :| key in rest;
      EntriesStep(m, rest, key);
      DecodePush(args, key, m[key]);
      args := args + [Flag(key), m[key]];
      rest := rest - {key};
    }
    assert m - rest == m;
  }

  /** Secret values as they appear on the command line: for Google they are base64 encoded. */
  function Shown(data: map<string, string>, google: bool, encode: string -> string): map<string, string> {
    map key | key in data :: if google then encode(data[key]) else data[key]
  }

  /** What is needed of the base64 encoding (section 4 of RFC 4648): nothing is lost, and empty stays empty. */
  ghost predicate Lossless(encode: string -> string) {
    encode("") == "" && forall s, t :: encode(s) == encode(t) ==> s == t
  }

  ghost predicate Complete(data: map<string, string>) {
    forall key :: key in data ==> key != "" && data[key] != ""
  }

  /** `getAuthSecretArgs` on the data of the secret: whether it succeeds does not depend on the order. */
  method AuthArgs(data: map<string, string>, google: bool, encode: string -> string) returns (r: Option<seq<string>>)
    requires Lossless(encode)
    ensures r.Some? <==> Complete(data)
    ensures r.Some? ==> Encodes(r.value, EntriesOf(Shown(data, google, encode)))
  {
    hide Decode, EntriesOf, Paired;
    var shown := Shown(data, google, encode);
    var args := [];
    var rest := shown.Keys;
    assert shown - rest == map[] && Encodes(args, EntriesOf(map[])) by { EmptyEncodes(); }
    while rest != {}
      invariant rest <= shown.Keys
      invariant Encodes(args, EntriesOf(shown - rest))
      invariant forall key :: key in data && key !in rest ==> key != "" && data[key] != ""
      decreases |rest|
    {
      var key :| key in rest;
      var value := if google then encode(data[key]) else data[key];
      assert data[key] == "" ==> value == "";
      if value == "" || key == "" {
        assert value == "" && google ==> encode(data[key]) == encode("");
        return None;
      }
      EntriesStep(shown, rest, key);
      DecodePush(args, key, value);
      args := args + [Flag(key), value];
      rest := rest - {key};
    }
    assert shown - rest == shown;
    r := Some(args);
  }

  // ----- the whole list -----

  const REGION := "amazonec2-region"

  function Lookup(m: map<string, string>, key: string): string {
    if key in m then m[key] else ""
  }

  function ScriptEntries(script: Option<(string, string)>): Entries {
    if script.Some? then multiset{script.value} else multiset{}
  }

  function AmiEntries(spec: Spec, amis: map<string, string>): Entries {
    var ami := Lookup(amis, Lookup(spec.parameters, REGION));
    if ami != "" then multiset{("amazonec2-ami", ami)} else multiset{}
  }

  function AnnotationEntries(spec: Spec, a: Annotations): Entries {
    if spec.driver != AWS_DRIVER then multiset{}
    else
      (if a.vpc != NONE then multiset{("amazonec2-vpc-id", a.vpc.text)} else multiset{})
      + (if a.subnet != NONE then multiset{("amazonec2-subnet-id", a.subnet.text)} else multiset{})
  }

  method AmiArgs(spec: Spec, amis: map<string, string>) returns (args: seq<string>)
    ensures Encodes(args, AmiEntries(spec, amis))
  {
    args := [];
    var ami := Lookup(amis, Lookup(spec.parameters, REGION));
    if ami != "" {
      args := [Flag("amazonec2-ami"), ami];
      DecodeOne("amazonec2-ami", ami);
    }
  }

  method AnnotationArgs(spec: Spec, a: Annotations) returns (args: seq<string>)
    ensures Encodes(args, AnnotationEntries(spec, a))
    ensures spec.driver == AWS_DRIVER && a.vpc != NONE && a.subnet != NONE ==>
      args == [Flag("amazonec2-vpc-id"), a.vpc.text, Flag("amazonec2-subnet-id"), a.subnet.text]
  {
    args := [];
    if spec.driver == AWS_DRIVER {
      if a.vpc != NONE {
        DecodePush(args, "amazonec2-vpc-id", a.vpc.text);
        args := args + [Flag("amazonec2-vpc-id"), a.vpc.text];
      }
      if a.subnet != NONE {
        DecodePush(args, "amazonec2-subnet-id", a.subnet.text);
        args := args + [Flag("amazonec2-subnet-id"), a.subnet.text];
      }
    }
  }

  /** What the operator is built with: the image table and the encoding of secrets for Google. */
  datatype Setup = Setup(images: map<string, string>, encode: string -> string)

  /** What was read besides the object: the one flag/value pair that a referenced startup script contributes, and the
      data of the auth secret. */
  datatype Inputs = Inputs(script: Option<(string, string)>, secret: map<string, string>, setup: Setup)

  function One(b: bool): nat { if b then 1 else 0 }

  /** `create --driver D`, pairs, and the name; each pair is listed as often as it is a parameter, the script's, the
      secret's (for Google, encoded), the image's, or for AWS the recorded VPC's or subnet's. */
  ghost predicate Faithful(args: seq<string>, spec: Spec, name: string, a: Annotations, inputs: Inputs) {
    && |args| >= 4 && args[..3] == ["create", "--driver", spec.driver] && args[|args| - 1] == name
    && Paired(args[3..|args| - 1])
    && forall key, value :: Decode(args[3..|args| - 1])[(key, value)] == Listed(spec, a, inputs, key, value)
  }

  function Listed(spec: Spec, a: Annotations, inputs: Inputs, key: string, value: string): nat {
    var image := Lookup(inputs.setup.images, Lookup(spec.parameters, REGION));
    One(key in spec.parameters && spec.parameters[key] == value)
    + One(inputs.script == Some((key, value)))
    + One(key in inputs.secret
          && value == (if spec.driver == GOOGLE_DRIVER
                       then inputs.setup.encode(inputs.secret[key]) else inputs.secret[key]))
    + One(image != "" && key == "amazonec2-ami" && value == image)
    + One(spec.driver == AWS_DRIVER && a.vpc != NONE && key == "amazonec2-vpc-id" && value == a.vpc.text)
    + One(spec.driver == AWS_DRIVER && a.subnet != NONE && key == "amazonec2-subnet-id" && value == a.subnet.text)
  }

  lemma EntriesCount(m: map<string, string>, key: string, value: string)
    ensures EntriesOf(m)[(key, value)] == One(key in m && m[key] == value)
  {
    var s := set x | x in m :: (x, m[x]);
    assert (key, value) in s <==> key in m && m[key] == value;
  }

  lemma AmiCount(spec: Spec, images: map<string, string>, key: string, value: string)
    ensures var image := Lookup(images, Lookup(spec.parameters, REGION));
      AmiEntries(spec, images)[(key, value)] == One(image != "" && key == "amazonec2-ami" && value == image)
  {}

  lemma AnnotationCount(spec: Spec, a: Annotations, key: string, value: string)
    ensures AnnotationEntries(spec, a)[(key, value)] ==
      One(spec.driver == AWS_DRIVER && a.vpc != NONE && key == "amazonec2-vpc-id" && value == a.vpc.text)
      + One(spec.driver == AWS_DRIVER && a.subnet != NONE && key == "amazonec2-subnet-id" && value == a.subnet.text)
  {
    var vpc := multiset{("amazonec2-vpc-id", a.vpc.text)};
    var subnet := multiset{("amazonec2-subnet-id", a.subnet.text)};
    assert vpc[(key, value)] == One(key == "amazonec2-vpc-id" && value == a.vpc.text);
    assert subnet[(key, value)] == One(key == "amazonec2-subnet-id" && value == a.subnet.text);
  }

  lemma ListCounts(spec: Spec, a: Annotations, inputs: Inputs, shown: map<string, string>, key: string, value: string)
    requires shown == Shown(inputs.secret, spec.driver == GOOGLE_DRIVER, inputs.setup.encode)
    ensures (EntriesOf(spec.parameters) + ScriptEntries(inputs.script) + EntriesOf(shown)
             + AmiEntries(spec, inputs.setup.images) + AnnotationEntries(spec, a))[(key, value)]
            == Listed(spec, a, inputs, key, value)
  {
    hide EntriesOf, AmiEntries, AnnotationEntries, Lookup;
    EntriesCount(spec.parameters, key, value);
    EntriesCount(shown, key, value);
    AmiCount(spec, inputs.setup.images, key, value);
    AnnotationCount(spec, a, key, value);
    assert ScriptEntries(inputs.script)[(key, value)] == One(inputs.script == Some((key, value)));
  }

  /** `getMachineCreationArgs` from the parts that were read; `auth` comes from AuthArgs. */
  method MachineArgs(spec: Spec, name: string, script: Option<(string, string)>, auth: seq<string>,
                     setup: Setup, a: Annotations, ghost secret: map<string, string>)
    returns (args: seq<string>)
    requires Encodes(auth, EntriesOf(Shown(secret, spec.driver == GOOGLE_DRIVER, setup.encode)))
    ensures |args| >= 4 && args[..3] == ["create", "--driver", spec.driver] && args[|args| - 1] == name
    ensures Paired(args[3..|args| - 1])
    ensures forall key, value ::
      var image := Lookup(setup.images, Lookup(spec.parameters, REGION));
      Decode(args[3..|args| - 1])[(key, value)] ==
      One(key in spec.parameters && spec.parameters[key] == value)
      + One(script == Some((key, value)))
      + One(key in secret && value == (if spec.driver == GOOGLE_DRIVER then setup.encode(secret[key]) else secret[key]))
      + One(image != "" && key == "amazonec2-ami" && value == image)
      + One(spec.driver == AWS_DRIVER && a.vpc != NONE && key == "amazonec2-vpc-id" && value == a.vpc.text)
      + One(spec.driver == AWS_DRIVER && a.subnet != NONE && key == "amazonec2-subnet-id" && value == a.subnet.text)
    ensures Faithful(args, spec, name, a, Inputs(script, secret, setup))
    ensures spec.driver == AWS_DRIVER && a.vpc != NONE && a.subnet != NONE ==> CarriesIds(args, name, a)
  {
    hide Decode, Paired, EntriesOf, AmiEntries, AnnotationEntries, Shown;
    ghost var shown := Shown(secret, spec.driver == GOOGLE_DRIVER, setup.encode);
    var pairs := PairArgs(spec.parameters);
    if script.Some? {
      DecodePush(pairs, script.value.0, script.value.1);
      pairs := pairs + [Flag(script.value.0), script.value.1];
    }
    DecodeAppend(pairs, auth);
    pairs := pairs + auth;
    var ami := AmiArgs(spec, setup.images);
    DecodeAppend(pairs, ami);
    pairs := pairs + ami;
    var ids := AnnotationArgs(spec, a);
    DecodeAppend(pairs, ids);
    var head := ["create", "--driver", spec.driver];
    args := head + (pairs + ids) + [name];
    Framing(head, pairs, ids, name);
    ghost var inputs := Inputs(script, secret, setup);
    forall key, value ensures Decode(args[3..|args| - 1])[(key, value)] == Listed(spec, a, inputs, key, value) {
      ListCounts(spec, a, inputs, shown, key, value);
    }
  }

  lemma Framing(head: seq<string>, pairs: seq<string>, ids: seq<string>, name: string)
    ensures var args := head + (pairs + ids) + [name];
      && args[..|head|] == head && args[|head|..|args| - 1] == pairs + ids && args[|args| - 1] == name
      && args[|head| + |pairs|..] == ids + [name]
  {}

  /** The list ends with the ids of the recorded VPC and subnet, and the name. */
  ghost predicate CarriesIds(args: seq<string>, name: string, a: Annotations) {
    |args| >= 5 && args[|args| - 5..] ==
      [Flag("amazonec2-vpc-id"), a.vpc.text, Flag("amazonec2-subnet-id"), a.subnet.text, name]
  }

  // ----- the list determines the secret -----

  /** Two secrets never give the same command, even when values are encoded. */
  lemma ArgumentsDetermine(args: seq<string>, spec: Spec, name: string, a: Annotations, p: Inputs, q: Inputs)
    requires Faithful(args, spec, name, a, p) && Faithful(args, spec, name, a, q)
    requires p.script == q.script && p.setup == q.setup && Lossless(p.setup.encode)
    ensures p.secret == q.secret
  {
    SecretIncluded(args, spec, name, a, p, q);
    SecretIncluded(args, spec, name, a, q, p);
  }

  lemma SecretIncluded(args: seq<string>, spec: Spec, name: string, a: Annotations, p: Inputs, q: Inputs)
    requires Faithful(args, spec, name, a, p) && Faithful(args, spec, name, a, q)
    requires p.script == q.script && p.setup == q.setup && Lossless(p.setup.encode)
    ensures forall key :: key in p.secret ==> key in q.secret && q.secret[key] == p.secret[key]
  {
    hide Decode, Paired;
    forall key | key in p.secret ensures key in q.secret && q.secret[key] == p.secret[key] {
      var value := if spec.driver == GOOGLE_DRIVER then p.setup.encode(p.secret[key]) else p.secret[key];
      assert Listed(spec, a, p, key, value) == Listed(spec, a, q, key, value);
    }
  }
}
