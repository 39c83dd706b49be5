/**
 The data block as JavaScript evaluates the object literal: the eight named
 properties are defined first, then `...extraData` copies the own properties
 of `extraData` one key at a time (ECMAScript CopyDataProperties), each copy
 overwriting a property of the same name. The method is proved to
 yield exactly the map `Envelope.BuildData` describes.
 */
module Assembly {
  import opened Envelope

  /** Evaluates the data literal step by step: the named properties, then
      every own key of `extraData`, in whatever order the keys come. */
  method AssembleData(req: Request) returns (d: map<string, string>)
    ensures d == BuildData(req)
  {
    var base := BaseData(req);
    d := base;

    var extra := ExtraOf(req);
    var pending := extra.Keys;
    while pending != {}
      invariant pending <= extra.Keys
      invariant d.Keys == base.Keys + (extra.Keys - pending)
      invariant forall k :: k in extra.Keys - pending ==> d[k] == extra[k]
      invariant forall k :: k in base && k !in extra.Keys - pending ==> d[k] == base[k]
      decreases |pending|
    {
      var k :| k in pending;
      d := d[k := extra[k]];
      pending := pending - {k};
    }
  }
}
