/** The array count action: the number of elements of an array. */
module ArrayCount {
  import opened Wrappers
  import opened Js

  const CountPrefix := "Unable to count array: "
  const NotValid := "Provided array is not valid"

  /** `arrayCount({array})`: the length of an array; anything else (missing, falsy or not an
      array) is rejected, and the message is prefixed by the catch block. */
  function Count(list: Value): (r: Result<nat>)
    ensures r.Ok? <==> list.Arr?
    ensures r.Ok? ==> r.value == |list.items|
    ensures r.Err? ==> r.message == CountPrefix + NotValid
  {
    if !Truthy(list) || !list.Arr? then Err(CountPrefix + NotValid) else Ok(|list.items|)
  }

}
