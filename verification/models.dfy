/**
 * Record shapes shared by the screens: the catalogue product and the sale line item.
 * Fields the server may leave out (and that the code reads through `??`) are options.
 */
module Models {
  import opened Wrappers

  /** A catalogue product (`Producto`), with the fields the modelled logic reads. */
  datatype Producto = Producto(
    idProducto: int,
    nombre: string,
    descripcion: Option<string>,
    precioUnitario: Option<int>,
    stockActual: Option<int>,
    stockMinimo: Option<int>,
    stockMaximo: Option<int>,
    unidadMedida: Option<int>,
    categoria: Option<int>)

  /** A sale line as the server stores it (`VentaDetalleItem`) and as `submit` sends it. */
  datatype SaleItem = SaleItem(idProducto: int, cantidad: nat, precioUnitario: int)
}
