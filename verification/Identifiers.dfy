/** util/util.go: names with their tenancy, where the empty tenancy means "default". */
module Identifiers {
  import opened Text

  const DEFAULT := "default"

  function OrDefault(name: string): string { if name == "" then DEFAULT else name }

  datatype Identifier = Identifier(name: string, ns: string, partition: string) {
    function Normalized(): Identifier { Identifier(name, OrDefault(ns), OrDefault(partition)) }
    predicate InDefaultTenancy() { ns == DEFAULT && partition == DEFAULT }
    /** String(): partition/namespace/name. */
    function Text(): string { partition + "/" + ns + "/" + name }
    /** ID(): partition.namespace.name. */
    function Dotted(): string { partition + "." + ns + "." + name }
  }

  datatype Identifier2 = Identifier2(name: string, partition: string) {
    function Normalized(): Identifier2 { Identifier2(name, OrDefault(partition)) }
  }

  function NewIdentifier(name: string, ns: string, partition: string): Identifier {
    Identifier(name, ns, partition).Normalized()
  }

  function NewIdentifier2(name: string, partition: string): Identifier2 {
    Identifier2(name, partition).Normalized()
  }

  /** The printed form tells two identifiers apart when their tenancies hold no slash. */
  lemma TextInjective(a: Identifier, b: Identifier)
    requires Lacks(a.partition, '/') && Lacks(b.partition, '/') && Lacks(a.ns, '/') && Lacks(b.ns, '/')
    requires a.Text() == b.Text()
    ensures a == b
  {
    var ra, rb := a.ns + "/" + a.name, b.ns + "/" + b.name;
    assert a.Text() == a.partition + ['/'] + ra && b.Text() == b.partition + ['/'] + rb;
    JoinInjective(a.partition, ra, b.partition, rb, '/');
    JoinInjective(a.ns, a.name, b.ns, b.name, '/');
  }

  lemma DottedInjective(a: Identifier, b: Identifier)
    requires Lacks(a.partition, '.') && Lacks(b.partition, '.') && Lacks(a.ns, '.') && Lacks(b.ns, '.')
    requires a.Dotted() == b.Dotted()
    ensures a == b
  {
    var ra, rb := a.ns + "." + a.name, b.ns + "." + b.name;
    assert a.Dotted() == a.partition + ['.'] + ra && b.Dotted() == b.partition + ['.'] + rb;
    JoinInjective(a.partition, ra, b.partition, rb, '.');
    JoinInjective(a.ns, a.name, b.ns, b.name, '.');
  }
}
