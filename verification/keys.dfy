/**
 * The composite keys under which lines and machines are stored, and the
 * last-segment view of a key that explains why the scoped reset never finds
 * a machine: it builds its removal key with " / " where the insert uses "/".
 */
module Keys {

  /** Key of a line in the lines map: `fid/lid`. */
  function LineKey(fid: string, lid: string): string
  {
    fid + "/" + lid
  }

  /** Key of a machine in the machines map, as it is inserted: `fid/lid/mid`. */
  function MachineKey(fid: string, lid: string, mid: string): string
  {
    fid + "/" + lid + "/" + mid
  }

  /** Key the scoped reset removes a machine under: `fid/lid / mid`, with spaces. */
  function StaleMachineKey(fid: string, lid: string, mid: string): string
  {
    fid + "/" + lid + " / " + mid
  }

  /** The part of `k` after its last slash (all of `k` when it has none). */
  function LastSegment(k: string): (r: string)
    ensures '/' !in r
    ensures |r| <= |k| && r == k[|k| - |r|..]
    ensures |r| < |k| ==> k[|k| - |r| - 1] == '/'
  {
    if k == [] then []
    else if k[|k| - 1] == '/' then []
    else LastSegment(k[..|k| - 1]) + [k[|k| - 1]]
  }

  /** Joining a prefix and a slash-free tail with a slash makes the tail the last segment. */
  lemma LastSegmentOfJoin(p: string, x: string)
    requires '/' !in x
    ensures LastSegment(p + "/" + x) == x
  {
    var k := p + "/" + x;
    var r := LastSegment(k);
    assert k[|k| - |x| - 1] == '/';
    assert |r| == |x|;
    assert r == k[|k| - |x|..] == x;
  }

  /** The last segment of an inserted machine key is the machine id. */
  lemma MachineKeyLastSegment(fid: string, lid: string, mid: string)
    requires '/' !in mid
    ensures LastSegment(MachineKey(fid, lid, mid)) == mid
  {
    assert MachineKey(fid, lid, mid) == (fid + "/" + lid) + "/" + mid;
    LastSegmentOfJoin(fid + "/" + lid, mid);
  }

  /** The last segment of a removal key is the machine id behind a space. */
  lemma StaleMachineKeyLastSegment(fid: string, lid: string, mid: string)
    requires '/' !in mid
    ensures LastSegment(StaleMachineKey(fid, lid, mid)) == " " + mid
  {
    assert StaleMachineKey(fid, lid, mid) == (fid + "/" + lid + " ") + "/" + (" " + mid);
    LastSegmentOfJoin(fid + "/" + lid + " ", " " + mid);
  }

  /** Within one facility, a line key determines the line id. */
  lemma LineKeyInjective(fid: string, lid: string, lid': string)
    requires LineKey(fid, lid) == LineKey(fid, lid')
    ensures lid == lid'
  {
    var n := |fid| + 1;
    assert lid == LineKey(fid, lid)[n..];
    assert lid' == LineKey(fid, lid')[n..];
  }

  /** Within one facility, a machine key with slash-free ids determines the line and the machine id. */
  lemma MachineKeyInjective(fid: string, lid: string, mid: string, lid': string, mid': string)
    requires '/' !in mid && '/' !in mid'
    requires MachineKey(fid, lid, mid) == MachineKey(fid, lid', mid')
    ensures lid == lid' && mid == mid'
  {
    MachineKeyLastSegment(fid, lid, mid);
    MachineKeyLastSegment(fid, lid', mid');
    var k := MachineKey(fid, lid, mid);
    assert LineKey(fid, lid) == k[..|k| - |mid| - 1];
    assert LineKey(fid, lid') == k[..|k| - |mid'| - 1];
    LineKeyInjective(fid, lid, lid');
  }
}
