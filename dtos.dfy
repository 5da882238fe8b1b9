/** The data-transfer records exchanged with the backend API and bound from
    forms (internal/dtos). They are plain records; Go's float64 Price is a
    (finite) real, and json.RawMessage is the raw text. */
module Dtos {

  datatype SharedResponse = SharedResponse(success: bool, message: string, error: string)

  const EmptyShared := SharedResponse(false, "", "")

  // ---- users and authentication (internal/dtos/user.go)

  datatype User = User(
    id: int, email: string, firstName: string, lastName: string,
    phone: string, role: string, isActive: bool)

  datatype LoginData = LoginData(user: User, accessToken: string, refreshToken: string)

  datatype LoginResponse = LoginResponse(success: bool, message: string, data: LoginData, error: string)

  datatype LoginRequest = LoginRequest(email: string, password: string)

  datatype LoginUserForm = LoginUserForm(email: string, password: string)

  datatype RegisterRequest = RegisterRequest(
    email: string, password: string, firstName: string, lastName: string, phone: string)

  datatype RegisterResponse = RegisterResponse(success: bool, message: string, data: string, error: string)

  // ---- categories (internal/dtos/category.go)

  datatype Category = Category(id: int, name: string, description: string, isActive: bool)

  datatype CategoryResponse = CategoryResponse(shared: SharedResponse, categories: seq<Category>)

  datatype SingleCategoryResponse = SingleCategoryResponse(shared: SharedResponse, category: Category)

  datatype CreateCategoryRequest = CreateCategoryRequest(name: string, description: string)

  // ---- products (internal/dtos/product.go)

  datatype Image = Image(id: int, url: string, altText: string, isPrimary: bool)

  datatype Product = Product(
    id: int, name: string, categoryId: int, price: real, images: seq<Image>,
    isActive: bool, sku: string, stock: int, description: string, category: Category)

  datatype Meta = Meta(page: int, limit: int, total: int, totalPages: int)

  datatype ProductResponse = ProductResponse(shared: SharedResponse, products: seq<Product>, meta: Meta)

  datatype SingleProductResponse = SingleProductResponse(shared: SharedResponse, product: Product)

  datatype ProductImagesResponse = ProductImagesResponse(shared: SharedResponse, images: map<string, string>)

  /** The zero ProductImagesResponse{} that AddProductImages starts from. */
  const EmptyImagesResponse := ProductImagesResponse(EmptyShared, map[])

  datatype CreateProductForm = CreateProductForm(
    id: int, name: string, categoryId: int, price: real, stock: int, description: string)

  datatype CreateProductRequest = CreateProductRequest(
    name: string, categoryId: int, price: real, stock: int, description: string, sku: string)

  datatype UpdateProductRequest = UpdateProductRequest(
    name: string, categoryId: int, price: real, stock: int, description: string, sku: string)
}
