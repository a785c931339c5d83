/** `utils.rs`: turning a hash received as a byte vector into a fixed 32-byte array. */
module Utils {
  import opened Ints
  import opened Results

  const LengthError := "Vector length must be 32"

  /** The value `vec_to_array32` computes. */
  function Array32(v: seq<u8>): Result<seq<u8>> {
    if |v| != 32 then Err(LengthError) else Ok(v)
  }

  /** `vec_to_array32`: rejects any vector that is not exactly 32 bytes long, too short and
      too long alike, with the one length message; otherwise fills a zeroed 32-byte array from
      the vector (`copy_from_slice`) and returns it. The `[u8; 32]` it returns is a value, so
      the result is the array's contents. */
  method VecToArray32(v: seq<u8>) returns (r: Result<seq<u8>>)
    ensures r.Ok? <==> |v| == 32
    ensures r.Err? ==> r.error == LengthError
    ensures r.Ok? ==> |r.value| == 32 && forall i | 0 <= i < 32 :: r.value[i] == v[i]
    ensures r == Array32(v)
  {
    if |v| != 32 {
      return Err(LengthError);
    }
    var arr := new u8[32](_ => 0);
    for i := 0 to 32
      invariant forall j | 0 <= j < i :: arr[j] == v[j]
    {
      arr[i] := v[i];
    }
    assert arr[..] == v;
    return Ok(arr[..]);
  }
}
