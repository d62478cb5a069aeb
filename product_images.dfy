/** `ProductImageSerializer.get_image`: the URL the client receives for a product image. */
module ProductImages {

  import opened Wrappers
  import opened Urls
  import opened Records

  /** The URL rule shared by product images and avatars. `storageUrl` is the
      storage backend's `url` of a file name; `request` is the request found
      in the serializer context, if any. No file gives None; a URL beginning
      with "http" (a remote host) is kept; otherwise the request, when there
      is one, makes the URL absolute. */
  function ResolveFileUrl(file: FieldFile, storageUrl: string -> string, request: Option<Request>): (r: Option<string>)
    ensures r.None? <==> !file.IsTruthy()
    ensures file.IsTruthy() && StartsWithHttp(storageUrl(file.name)) ==>
      r == Some(storageUrl(file.name))
    ensures file.IsTruthy() && !StartsWithHttp(storageUrl(file.name)) && request.Some? ==>
      r == Some(request.value.buildAbsoluteUri(storageUrl(file.name)))
    ensures file.IsTruthy() && !StartsWithHttp(storageUrl(file.name)) && request.None? ==>
      r == Some(storageUrl(file.name))
    // the result is the stored URL or that URL passed through the request's builder
    ensures r.Some? ==>
      r.value == storageUrl(file.name) ||
      (request.Some? && r.value == request.value.buildAbsoluteUri(storageUrl(file.name)))
  {
    if !file.IsTruthy() then None
    else
      var url := storageUrl(file.name);
      if StartsWithHttp(url) then Some(url)
      else if request.Some? then Some(request.value.buildAbsoluteUri(url))
      else Some(url)
  }

  /** The image URL of `obj`: the shared rule applied to its image file. */
  function GetImage(obj: ProductImage, storageUrl: string -> string, request: Option<Request>): (r: Option<string>)
    ensures r.None? <==> !obj.image.IsTruthy()
    ensures obj.image.IsTruthy() && StartsWithHttp(storageUrl(obj.image.name)) ==>
      r == Some(storageUrl(obj.image.name))
    ensures obj.image.IsTruthy() && !StartsWithHttp(storageUrl(obj.image.name)) && request.Some? ==>
      r == Some(request.value.buildAbsoluteUri(storageUrl(obj.image.name)))
    ensures obj.image.IsTruthy() && !StartsWithHttp(storageUrl(obj.image.name)) && request.None? ==>
      r == Some(storageUrl(obj.image.name))
  {
    ResolveFileUrl(obj.image, storageUrl, request)
  }

  /** A URL already on a remote host comes out the same whether or not the
      serializer has a request, and whatever that request is. */
  lemma RemoteImageIgnoresRequest(obj: ProductImage, storageUrl: string -> string, r1: Option<Request>, r2: Option<Request>)
    requires obj.image.IsTruthy() ==> StartsWithHttp(storageUrl(obj.image.name))
    ensures GetImage(obj, storageUrl, r1) == GetImage(obj, storageUrl, r2)
  {
  }

  /** Without a request the serializer never rewrites the stored URL. */
  lemma NoRequestKeepsStoredUrl(obj: ProductImage, storageUrl: string -> string)
    ensures GetImage(obj, storageUrl, None) ==
      if obj.image.IsTruthy() then Some(storageUrl(obj.image.name)) else None
  {
  }

  /** When the request's builder yields "http..." URLs (as an absolute URI
      does), every image URL handed out under that request is absolute, and
      any stored file whose storage URL is that URL resolves to it unchanged,
      under any request or none. */
  lemma ResolvedUrlIsFixedPoint(obj: ProductImage, storageUrl: string -> string, request: Request,
                                file: FieldFile, fileStorageUrl: string -> string, again: Option<Request>)
    requires forall u :: StartsWithHttp(request.buildAbsoluteUri(u))
    ensures GetImage(obj, storageUrl, Some(request)).Some? ==>
      StartsWithHttp(GetImage(obj, storageUrl, Some(request)).value)
    ensures (GetImage(obj, storageUrl, Some(request)).Some? && file.IsTruthy() &&
             fileStorageUrl(file.name) == GetImage(obj, storageUrl, Some(request)).value) ==>
      ResolveFileUrl(file, fileStorageUrl, again) == GetImage(obj, storageUrl, Some(request))
  {
  }
}
