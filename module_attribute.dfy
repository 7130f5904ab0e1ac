/**
 * The Module attribute (section 4.7.25 of the Java Virtual Machine
 * Specification): three u2 header fields, then the requires, exports, opens,
 * uses and provides tables, each a u2 count followed by its entries
 * (src/classfile.rs, `parse_module_attribute`).
 */
module ModuleAttributes {
  import opened Bytes
  import opened Results
  import opened Cursor
  import opened AttributeTypes

  /** The requires entries still to read after `acc`: n more, each requires_index, requires_flags, requires_version_index. */
  function RequiresList(d: seq<u8>, p: nat, n: nat, acc: seq<ModuleRequires>): (r: Result<Decoded<seq<ModuleRequires>>>)
    requires p <= |d|
    ensures Advances(r, d, p)
    ensures r.Ok? <==> p + 6 * n <= |d|
    ensures r.Ok? ==> r.value.next == p + 6 * n && |r.value.value| == |acc| + n && r.value.value[..|acc|] == acc
    ensures r.Ok? ==> forall i | |acc| <= i < |acc| + n ::
      r.value.value[i] == ModuleRequires(BigEndian16(d, p + 6 * (i - |acc|)), BigEndian16(d, p + 6 * (i - |acc|) + 2), BigEndian16(d, p + 6 * (i - |acc|) + 4))
    ensures r.Err? ==> r.error == UnexpectedEof
    decreases n
  {
    if n == 0 then Ok(Decoded(acc, p))
    else
      var index :- U2(d, p);
      var flags :- U2(d, index.next);
      var version :- U2(d, flags.next);
      RequiresList(d, version.next, n - 1, acc + [ModuleRequires(index.value, flags.value, version.value)])
  }

  /** One exports entry: exports_index, exports_flags and a u2-counted exports_to table. */
  function ExportsAt(d: seq<u8>, p: nat): (r: Result<Decoded<ModuleExports>>)
    requires p <= |d|
    ensures Advances(r, d, p)
    ensures r.Ok? <==> p + 6 <= |d| && p + 6 + 2 * BigEndian16(d, p + 4) <= |d|
    ensures r.Ok? ==> r.value.next == p + 6 + 2 * BigEndian16(d, p + 4)
                      && r.value.value.exportsIndex == BigEndian16(d, p) && r.value.value.exportsFlags == BigEndian16(d, p + 2)
                      && |r.value.value.exportsTo| == BigEndian16(d, p + 4)
    ensures r.Ok? ==> forall i | 0 <= i < BigEndian16(d, p + 4) :: r.value.value.exportsTo[i] == BigEndian16(d, p + 6 + 2 * i)
    ensures r.Err? ==> r.error == UnexpectedEof
  {
    var index :- U2(d, p);
    var flags :- U2(d, index.next);
    var k :- U2(d, flags.next);
    var to :- Indices(d, k.next, k.value, []);
    Ok(Decoded(ModuleExports(index.value, flags.value, to.value), to.next))
  }

  /** The exports entries still to read after `acc`: n more. */
  function ExportsList(d: seq<u8>, p: nat, n: nat, acc: seq<ModuleExports>): (r: Result<Decoded<seq<ModuleExports>>>)
    requires p <= |d|
    ensures Advances(r, d, p)
    ensures r.Ok? ==> |r.value.value| == |acc| + n
    ensures r.Err? ==> r.error == UnexpectedEof
    decreases n
  {
    if n == 0 then Ok(Decoded(acc, p))
    else
      var e :- ExportsAt(d, p);
      ExportsList(d, e.next, n - 1, acc + [e.value])
  }
  /** exports_count and the exports entries after it. */
  function ExportsTable(d: seq<u8>, p: nat): (r: Result<Decoded<seq<ModuleExports>>>)
    requires p <= |d|
    ensures Advances(r, d, p)
    ensures r.Ok? ==> p + 2 <= |d| && |r.value.value| == BigEndian16(d, p)
    ensures p + 2 > |d| ==> r == Err(UnexpectedEof)
    ensures r.Err? ==> r.error == UnexpectedEof
  {
    var n :- U2(d, p);
    ExportsList(d, n.next, n.value, [])
  }


  /** One opens entry: the same layout as an exports entry. */
  function OpensAt(d: seq<u8>, p: nat): (r: Result<Decoded<ModuleOpens>>)
    requires p <= |d|
    ensures Advances(r, d, p)
    ensures r.Ok? <==> p + 6 <= |d| && p + 6 + 2 * BigEndian16(d, p + 4) <= |d|
    ensures r.Ok? ==> r.value.next == p + 6 + 2 * BigEndian16(d, p + 4)
                      && r.value.value.opensIndex == BigEndian16(d, p) && r.value.value.opensFlags == BigEndian16(d, p + 2)
                      && |r.value.value.opensTo| == BigEndian16(d, p + 4)
    ensures r.Ok? ==> forall i | 0 <= i < BigEndian16(d, p + 4) :: r.value.value.opensTo[i] == BigEndian16(d, p + 6 + 2 * i)
    ensures r.Err? ==> r.error == UnexpectedEof
  {
    var index :- U2(d, p);
    var flags :- U2(d, index.next);
    var k :- U2(d, flags.next);
    var to :- Indices(d, k.next, k.value, []);
    Ok(Decoded(ModuleOpens(index.value, flags.value, to.value), to.next))
  }

  /** The opens entries still to read after `acc`: n more. */
  function OpensList(d: seq<u8>, p: nat, n: nat, acc: seq<ModuleOpens>): (r: Result<Decoded<seq<ModuleOpens>>>)
    requires p <= |d|
    ensures Advances(r, d, p)
    ensures r.Ok? ==> |r.value.value| == |acc| + n
    ensures r.Err? ==> r.error == UnexpectedEof
    decreases n
  {
    if n == 0 then Ok(Decoded(acc, p))
    else
      var e :- OpensAt(d, p);
      OpensList(d, e.next, n - 1, acc + [e.value])
  }
  /** opens_count and the opens entries after it. */
  function OpensTable(d: seq<u8>, p: nat): (r: Result<Decoded<seq<ModuleOpens>>>)
    requires p <= |d|
    ensures Advances(r, d, p)
    ensures r.Ok? ==> p + 2 <= |d| && |r.value.value| == BigEndian16(d, p)
    ensures p + 2 > |d| ==> r == Err(UnexpectedEof)
    ensures r.Err? ==> r.error == UnexpectedEof
  {
    var n :- U2(d, p);
    OpensList(d, n.next, n.value, [])
  }


  /** One provides entry: provides_index and a u2-counted provides_with table. */
  function ProvidesAt(d: seq<u8>, p: nat): (r: Result<Decoded<ModuleProvides>>)
    requires p <= |d|
    ensures Advances(r, d, p)
    ensures r.Ok? <==> p + 4 <= |d| && p + 4 + 2 * BigEndian16(d, p + 2) <= |d|
    ensures r.Ok? ==> r.value.next == p + 4 + 2 * BigEndian16(d, p + 2)
                      && r.value.value.providesIndex == BigEndian16(d, p)
                      && |r.value.value.providesWith| == BigEndian16(d, p + 2)
    ensures r.Ok? ==> forall i | 0 <= i < BigEndian16(d, p + 2) :: r.value.value.providesWith[i] == BigEndian16(d, p + 4 + 2 * i)
    ensures r.Err? ==> r.error == UnexpectedEof
  {
    var index :- U2(d, p);
    var k :- U2(d, index.next);
    var impls :- Indices(d, k.next, k.value, []);
    Ok(Decoded(ModuleProvides(index.value, impls.value), impls.next))
  }

  /** The provides entries still to read after `acc`: n more. */
  function ProvidesList(d: seq<u8>, p: nat, n: nat, acc: seq<ModuleProvides>): (r: Result<Decoded<seq<ModuleProvides>>>)
    requires p <= |d|
    ensures Advances(r, d, p)
    ensures r.Ok? ==> |r.value.value| == |acc| + n
    ensures r.Err? ==> r.error == UnexpectedEof
    decreases n
  {
    if n == 0 then Ok(Decoded(acc, p))
    else
      var e :- ProvidesAt(d, p);
      ProvidesList(d, e.next, n - 1, acc + [e.value])
  }
  /** provides_count and the provides entries after it. */
  function ProvidesTable(d: seq<u8>, p: nat): (r: Result<Decoded<seq<ModuleProvides>>>)
    requires p <= |d|
    ensures Advances(r, d, p)
    ensures r.Ok? ==> p + 2 <= |d| && |r.value.value| == BigEndian16(d, p)
    ensures p + 2 > |d| ==> r == Err(UnexpectedEof)
    ensures r.Err? ==> r.error == UnexpectedEof
  {
    var n :- U2(d, p);
    ProvidesList(d, n.next, n.value, [])
  }


  /**
   * The whole Module attribute body. The header fields are read verbatim,
   * the requires count gives the number of requires entries, each six bytes
   * long, and a header cut short is an early end of input. The four tables
   * after requires follow one another, each count being the u2 right after
   * the previous table.
   */
  function ModuleAt(d: seq<u8>, p: nat): (r: Result<Decoded<ModuleAttribute>>)
    requires p <= |d|
    ensures Advances(r, d, p)
    ensures r.Ok? ==> p + 8 <= |d|
    ensures r.Ok? ==> r.value.value.moduleNameIndex == BigEndian16(d, p)
    ensures r.Ok? ==> r.value.value.moduleFlags == BigEndian16(d, p + 2)
    ensures r.Ok? ==> r.value.value.moduleVersionIndex == BigEndian16(d, p + 4)
    ensures r.Ok? ==> |r.value.value.moduleRequires| == BigEndian16(d, p + 6)
    ensures r.Ok? ==> p + 8 + 6 * BigEndian16(d, p + 6) <= |d|
    ensures r.Ok? ==> r.value.value.moduleRequires == RequiresList(d, p + 8, BigEndian16(d, p + 6), []).value.value
    ensures r.Ok? ==>
              var exportsAt := p + 8 + 6 * BigEndian16(d, p + 6);
              ExportsTable(d, exportsAt).Ok? && r.value.value.moduleExports == ExportsTable(d, exportsAt).value.value &&
              var opensAt := ExportsTable(d, exportsAt).value.next;
              OpensTable(d, opensAt).Ok? && r.value.value.moduleOpens == OpensTable(d, opensAt).value.value &&
              var usesAt := OpensTable(d, opensAt).value.next;
              IndexTable(d, usesAt).Ok? && r.value.value.moduleUses == IndexTable(d, usesAt).value.value &&
              var providesAt := IndexTable(d, usesAt).value.next;
              ProvidesTable(d, providesAt).Ok? && r.value.value.moduleProvides == ProvidesTable(d, providesAt).value.value &&
              r.value.next == ProvidesTable(d, providesAt).value.next
    ensures p + 8 > |d| ==> r == Err(UnexpectedEof)
    ensures r.Err? ==> r.error == UnexpectedEof
  {
    var header :- ModuleHeaderAt(d, p);
    ModuleTablesAt(d, header.next, header.value)
  }

  /**
   * module_name_index, module_flags, module_version_index and the requires
   * table, in an attribute whose other tables are still empty.
   */
  function ModuleHeaderAt(d: seq<u8>, p: nat): (r: Result<Decoded<ModuleAttribute>>)
    requires p <= |d|
    ensures Advances(r, d, p)
    ensures r.Ok? <==> p + 8 <= |d| && p + 8 + 6 * BigEndian16(d, p + 6) <= |d|
    ensures r.Ok? ==>
              r.value.value.moduleNameIndex == BigEndian16(d, p) && r.value.value.moduleFlags == BigEndian16(d, p + 2) &&
              r.value.value.moduleVersionIndex == BigEndian16(d, p + 4) &&
              r.value.value.moduleRequires == RequiresList(d, p + 8, BigEndian16(d, p + 6), []).value.value &&
              r.value.next == p + 8 + 6 * BigEndian16(d, p + 6)
    ensures r.Err? ==> r.error == UnexpectedEof
  {
    var name :- U2(d, p);
    var flags :- U2(d, name.next);
    var version :- U2(d, flags.next);
    var requiresCount :- U2(d, version.next);
    var requiresTable :- RequiresList(d, requiresCount.next, requiresCount.value, []);
    Ok(Decoded(ModuleAttribute(name.value, flags.value, version.value, requiresTable.value, [], [], [], []), requiresTable.next))
  }

  /**
   * The exports, opens, uses and provides tables, in the order they are
   * read from p, filled into the attribute whose header and requires table
   * were read before them. Each count is the u2 right after the previous
   * table.
   */
  function ModuleTablesAt(d: seq<u8>, p: nat, header: ModuleAttribute): (r: Result<Decoded<ModuleAttribute>>)
    requires p <= |d|
    ensures Advances(r, d, p)
    ensures r.Ok? ==>
              r.value.value.moduleNameIndex == header.moduleNameIndex && r.value.value.moduleFlags == header.moduleFlags &&
              r.value.value.moduleVersionIndex == header.moduleVersionIndex && r.value.value.moduleRequires == header.moduleRequires
    ensures r.Ok? ==>
              ExportsTable(d, p).Ok? && r.value.value.moduleExports == ExportsTable(d, p).value.value &&
              var opensAt := ExportsTable(d, p).value.next;
              OpensTable(d, opensAt).Ok? && r.value.value.moduleOpens == OpensTable(d, opensAt).value.value &&
              var usesAt := OpensTable(d, opensAt).value.next;
              IndexTable(d, usesAt).Ok? && r.value.value.moduleUses == IndexTable(d, usesAt).value.value &&
              var providesAt := IndexTable(d, usesAt).value.next;
              ProvidesTable(d, providesAt).Ok? && r.value.value.moduleProvides == ProvidesTable(d, providesAt).value.value &&
              r.value.next == ProvidesTable(d, providesAt).value.next
    ensures r.Err? ==> r.error == UnexpectedEof
  {
    var exportsTable :- ExportsTable(d, p);
    var opensTable :- OpensTable(d, exportsTable.next);
    var usesTable :- IndexTable(d, opensTable.next);
    var providesTable :- ProvidesTable(d, usesTable.next);
    Ok(Decoded(header.(moduleExports := exportsTable.value, moduleOpens := opensTable.value,
                       moduleUses := usesTable.value, moduleProvides := providesTable.value),
               providesTable.next))
  }

  /** The requires loop. */
  method ParseRequires(r: Reader, n: nat) returns (res: Result<seq<ModuleRequires>>)
    requires r.Valid()
    modifies r
    ensures r.Valid() && Follows(RequiresList(r.data, old(r.pos), n, []), res, r.pos)
  {
    ghost var start := r.pos;
    var out: seq<ModuleRequires> := [];
    var i := 0;
    while i < n
      invariant i <= n && r.Valid()
      invariant RequiresList(r.data, start, n, []) == RequiresList(r.data, r.pos, n - i, out)
    {
      ghost var here := r.pos;
      var index := r.ReadU2();
      if index.Err? {
        assert RequiresList(r.data, here, n - i, out) == Err(index.error);
        return Err(index.error);
      }
      var flags := r.ReadU2();
      if flags.Err? {
        assert RequiresList(r.data, here, n - i, out) == Err(flags.error);
        return Err(flags.error);
      }
      var version := r.ReadU2();
      if version.Err? {
        assert RequiresList(r.data, here, n - i, out) == Err(version.error);
        return Err(version.error);
      }
      var e := ModuleRequires(index.value, flags.value, version.value);
      assert RequiresList(r.data, here, n - i, out) == RequiresList(r.data, r.pos, n - i - 1, out + [e]);
      out := out + [e];
      i := i + 1;
    }
    return Ok(out);
  }

  /** One exports entry, with the exports_to loop inside it. */
  method ParseExportsEntry(r: Reader, ghost n: nat, ghost acc: seq<ModuleExports>) returns (res: Result<ModuleExports>)
    requires r.Valid() && n > 0
    modifies r
    ensures r.Valid() && Follows(ExportsAt(r.data, old(r.pos)), res, r.pos)
    ensures res.Ok? ==> ExportsList(r.data, old(r.pos), n, acc) == ExportsList(r.data, r.pos, n - 1, acc + [res.value])
    ensures res.Err? ==> ExportsList(r.data, old(r.pos), n, acc) == Err(res.error)
  {
    var index :- r.ReadU2();
    var flags :- r.ReadU2();
    var k :- r.ReadU2();
    var to :- ReadIndices(r, k);
    return Ok(ModuleExports(index, flags, to));
  }

  /** The exports loop. */
  method ParseExports(r: Reader, n: nat) returns (res: Result<seq<ModuleExports>>)
    requires r.Valid()
    modifies r
    ensures r.Valid() && Follows(ExportsList(r.data, old(r.pos), n, []), res, r.pos)
  {
    ghost var start := r.pos;
    var out: seq<ModuleExports> := [];
    var i := 0;
    while i < n
      invariant i <= n && r.Valid()
      invariant ExportsList(r.data, start, n, []) == ExportsList(r.data, r.pos, n - i, out)
    {
      var e := ParseExportsEntry(r, n - i, out);
      if e.Err? {
        return Err(e.error);
      }
      out := out + [e.value];
      i := i + 1;
    }
    return Ok(out);
  }

  /** One opens entry, with the opens_to loop inside it. */
  method ParseOpensEntry(r: Reader, ghost n: nat, ghost acc: seq<ModuleOpens>) returns (res: Result<ModuleOpens>)
    requires r.Valid() && n > 0
    modifies r
    ensures r.Valid() && Follows(OpensAt(r.data, old(r.pos)), res, r.pos)
    ensures res.Ok? ==> OpensList(r.data, old(r.pos), n, acc) == OpensList(r.data, r.pos, n - 1, acc + [res.value])
    ensures res.Err? ==> OpensList(r.data, old(r.pos), n, acc) == Err(res.error)
  {
    var index :- r.ReadU2();
    var flags :- r.ReadU2();
    var k :- r.ReadU2();
    var to :- ReadIndices(r, k);
    return Ok(ModuleOpens(index, flags, to));
  }

  /** The opens loop. */
  method ParseOpens(r: Reader, n: nat) returns (res: Result<seq<ModuleOpens>>)
    requires r.Valid()
    modifies r
    ensures r.Valid() && Follows(OpensList(r.data, old(r.pos), n, []), res, r.pos)
  {
    ghost var start := r.pos;
    var out: seq<ModuleOpens> := [];
    var i := 0;
    while i < n
      invariant i <= n && r.Valid()
      invariant OpensList(r.data, start, n, []) == OpensList(r.data, r.pos, n - i, out)
    {
      var e := ParseOpensEntry(r, n - i, out);
      if e.Err? {
        return Err(e.error);
      }
      out := out + [e.value];
      i := i + 1;
    }
    return Ok(out);
  }

  /** One provides entry, with the provides_with loop inside it. */
  method ParseProvidesEntry(r: Reader, ghost n: nat, ghost acc: seq<ModuleProvides>) returns (res: Result<ModuleProvides>)
    requires r.Valid() && n > 0
    modifies r
    ensures r.Valid() && Follows(ProvidesAt(r.data, old(r.pos)), res, r.pos)
    ensures res.Ok? ==> ProvidesList(r.data, old(r.pos), n, acc) == ProvidesList(r.data, r.pos, n - 1, acc + [res.value])
    ensures res.Err? ==> ProvidesList(r.data, old(r.pos), n, acc) == Err(res.error)
  {
    var index :- r.ReadU2();
    var k :- r.ReadU2();
    var impls :- ReadIndices(r, k);
    return Ok(ModuleProvides(index, impls));
  }

  /** The provides loop. */
  method ParseProvides(r: Reader, n: nat) returns (res: Result<seq<ModuleProvides>>)
    requires r.Valid()
    modifies r
    ensures r.Valid() && Follows(ProvidesList(r.data, old(r.pos), n, []), res, r.pos)
  {
    ghost var start := r.pos;
    var out: seq<ModuleProvides> := [];
    var i := 0;
    while i < n
      invariant i <= n && r.Valid()
      invariant ProvidesList(r.data, start, n, []) == ProvidesList(r.data, r.pos, n - i, out)
    {
      var e := ParseProvidesEntry(r, n - i, out);
      if e.Err? {
        return Err(e.error);
      }
      out := out + [e.value];
      i := i + 1;
    }
    return Ok(out);
  }

  /** parse_module_attribute: the header, then the five tables in order. */
  method ParseModuleAttribute(r: Reader) returns (res: Result<ModuleAttribute>)
    requires r.Valid()
    modifies r
    ensures r.Valid() && Follows(ModuleAt(r.data, old(r.pos)), res, r.pos)
  {
    var name :- r.ReadU2();
    var flags :- r.ReadU2();
    var version :- r.ReadU2();
    var requiresCount :- r.ReadU2();
    var requiresTable :- ParseRequires(r, requiresCount);
    var exportsCount :- r.ReadU2();
    var exportsTable :- ParseExports(r, exportsCount);
    var opensCount :- r.ReadU2();
    var opensTable :- ParseOpens(r, opensCount);
    var usesTable :- ReadIndexTable(r);
    var providesCount :- r.ReadU2();
    var providesTable :- ParseProvides(r, providesCount);
    return Ok(ModuleAttribute(name, flags, version, requiresTable, exportsTable, opensTable, usesTable, providesTable));
  }
}
